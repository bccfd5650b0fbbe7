/** One turn of a provisioning worker, from its claim to the end of its clean-up, and what a caller may conclude from
    its result (apps/server/src/notification-provisioning.ts, processJob). */
module ProvisioningTurns {
  import opened Wrappers
  import opened Provisioning
  import opened ProvisioningRuns
  import opened ProvisioningPaths
  import opened ProvisioningEffects

  // ---------------------------------------------------------------------------
  // What stays

  /** Devices stay in the table and with their user, and a revoked one stays revoked. */
  ghost predicate DevicesStay(s: State, s': State) {
    forall d :: d in s.devices ==> d in s'.devices && (s'.devices[d] == s.devices[d] || s'.devices[d] == s.devices[d].(revoked := true))
  }

  lemma AnswerKeepsDevices(s: State, s': State, call: Call, answer: Option<Option<Token>>)
    requires AnsweredBy(s, s', call, answer)
    ensures DevicesStay(s, s')
  {
    if s'.devices != s.devices { assert Effect(s, s', call, call.user.value, answer.value); }
  }

  lemma StepKeepsDevices(s: State, a: Action)
    requires Possible(s, a)
    ensures DevicesStay(s, Apply(s, a))
  {
    if a.Answer? {
      ReplyMeans(s, a.call, a.answer, a.device, a.found, a.later);
      AnswerKeepsDevices(s, Apply(s, a), a.call, a.answer);
    } else {
      OthersKeepDevices(s, a);
    }
  }

  lemma OthersKeepDevices(s: State, a: Action)
    requires Possible(s, a) && !a.Answer?
    ensures DevicesStay(s, Apply(s, a))
  {
    if a.CleanUpDone? { StaleDoneKeepsDevices(s, a.call, a.token, a.cleaned, a.id, a.later); }
  }

  lemma {:induction false} DevicesOnPath(run: Run, i: nat)
    requires |run.states| == |run.actions| + 1 && i <= |run.actions|
    requires forall k {:trigger run.StepOk(k)} :: 0 <= k < |run.actions| ==> run.StepOk(k)
    ensures DevicesStay(run.states[0], run.states[i])
  {
    if i > 0 {
      DevicesOnPath(run, i - 1);
      assert run.StepOk(i - 1);
      StepKeepsDevices(run.states[i - 1], run.actions[i - 1]);
    }
  }

  lemma LeadsKeepsDevices(s: State, s': State)
    requires Leads(s, s')
    ensures DevicesStay(s, s')
  {
    var run :| Joins(run, s, s');
    DevicesOnPath(run, |run.actions|);
  }

  /** A job is being worked on exactly while it carries a lease. */
  ghost predicate LeasesOk(s: State) {
    forall j :: j in s.jobs ==> (s.jobs[j].status == Processing <==> s.jobs[j].leaseUntil.Some?)
  }

  lemma StepKeepsLeases(s: State, a: Action)
    requires LeasesOk(s) && Possible(s, a)
    ensures LeasesOk(Apply(s, a))
  {
    if a.Answer? {
      ReplyMeans(s, a.call, a.answer, a.device, a.found, a.later);
      AnswerKeepsLeases(s, Apply(s, a), a.call, a.answer);
    } else if a.CleanUpDone? {
      CleanUpKeepsLeases(s, a.call, a.token, a.cleaned, a.id, a.later);
    } else {
      HandlersKeepLeases(s, a);
    }
  }

  lemma CleanUpKeepsLeases(s: State, call: Call, token: Option<Token>, cleaned: bool, id: JobId, later: int)
    requires LeasesOk(s) && id !in s.jobs
    ensures LeasesOk(StaleDone(s, call, token, cleaned, id, later))
  {
    if call.job in s.jobs { StaleDoneMeans(s, call, token, cleaned, id, later); }
  }

  lemma HandlersKeepLeases(s: State, a: Action)
    requires LeasesOk(s) && Possible(s, a) && !a.Answer? && !a.CleanUpDone?
    ensures LeasesOk(Apply(s, a))
  {
  }

  lemma AnswerKeepsLeases(s: State, s': State, call: Call, answer: Option<Option<Token>>)
    requires LeasesOk(s) && AnsweredBy(s, s', call, answer)
    ensures LeasesOk(s')
  {
  }

  lemma {:induction false} RunKeepsLeases(run: Run, i: nat)
    requires run.Valid() && i < |run.states|
    ensures LeasesOk(run.states[i])
  {
    if i > 0 {
      RunKeepsLeases(run, i - 1);
      assert run.StepOk(i - 1);
      StepKeepsLeases(run.states[i - 1], run.actions[i - 1]);
    }
  }

  lemma ReachableFacts(s: State)
    requires Reachable(s)
    ensures LeasesOk(s) && HintsDiffer(s)
  {
    var run := ReachedByRun(s);
    RunKeepsLeases(run, |run.actions|);
    RunKeepsHints(run, |run.actions|);
  }

  // ---------------------------------------------------------------------------
  // Turns

  /** The token in the answer is for an account that has moved on. */
  predicate Supersedes(s: State, call: Call, answer: Option<Option<Token>>) {
    HeldBy(s, call) && answer.Some? && GivesToken(call) && call.user.Some? && !Fitting(s, call.user.value, call)
  }

  /** The worker still holds the job, and the answer is all it needs. */
  predicate Completes(s: State, call: Call, answer: Option<Option<Token>>) {
    && HeldBy(s, call) && answer.Some? && !Supersedes(s, call, answer)
    && (GivesToken(call) && call.user.Some? ==> answer.value.Some?)
  }

  /** The state a worker claimed its job in and its two clock readings, the call it made, the state and the answer when
      it came, the state after handling it, the state when a clean-up request came back and whether that cleaned up,
      and the state it left. */
  datatype JobTurn = JobTurn(before: State, at: int, later: int, call: Call, answered: State, answer: Option<Option<Token>>,
                             settled: State, cleaned: State, tidy: bool, after: State)
  {
    ghost predicate Superseded() {
      Supersedes(answered, call, answer)
    }

    /** The job was claimed, the request made, the answer handled, and a superseded token cleaned up. */
    ghost predicate Sound() {
      && Claimable(before, call.job, at) && before.now <= at <= later && call == CallOf(before, call.job, later)
      && Leads(Claim(before, call.job, later), answered)
      && AnsweredBy(answered, settled, call, answer) && answered.now <= settled.now
      && if Superseded() then
           && Leads(settled, cleaned)
           && exists id, now :: id !in cleaned.jobs && after == StaleDone(cleaned, call, answer.value, tidy, id, now)
         else after == settled
    }

    ghost predicate Completed() {
      Completes(answered, call, answer)
    }
  }

  /** What follows from a completed turn, for whoever asked for it. */
  lemma CompletedTurn(t: JobTurn)
    requires t.Sound() && t.Completed()
    ensures t.call.job in t.after.jobs && t.after.jobs[t.call.job].status == Provisioning.Completed && Finished(t.answered, t.after, t.call, t.answer.value)
  {
  }

  /** A completed token job leaves an active account with an unrevoked device. */
  lemma CompletedTokenTurn(t: JobTurn)
    requires t.Sound() && t.Completed() && GivesToken(t.call) && t.call.user.Some?
    ensures var user := t.call.user.value;
      && user in t.after.accounts && t.after.accounts[user].status == Active
      && exists d :: Unrevoked(t.after, d, user) && LastEight(t.after.devices[d].token) == LastEight(t.answer.value.value)
  {
    CompletedTurn(t);
    var user, token := t.call.user.value, t.answer.value.value;
    assert TokenKept(t.answered, t.after, user, token, t.call.payload.Generation());
    if d :| Unrevoked(t.answered, d, user) && LastEight(t.answered.devices[d].token) == LastEight(token) {
      assert Unrevoked(t.after, d, user);
    } else {
      var d: DeviceId :| d !in t.answered.devices && t.after.devices == t.answered.devices[d := Device(user, token, false, t.call.payload.Generation())];
      assert Unrevoked(t.after, d, user);
    }
  }

  /** A completed revocation leaves the device it was made for revoked, and no unrevoked device of the user with that
      token. */
  lemma CompletedRevocation(t: JobTurn, device: DeviceId, user: UserId)
    requires t.Sound() && t.Completed() && Reachable(t.answered) && t.call.op == RevokeDevice && t.call.user == Some(user)
    requires device in t.before.devices && t.before.devices[device].user == user && t.call.payload.token == Some(t.before.devices[device].token)
    ensures device in t.after.devices && t.after.devices[device] == t.before.devices[device].(revoked := true)
    ensures forall d :: Unrevoked(t.after, d, user) ==> t.after.devices[d].token != t.before.devices[device].token
  {
    var token := t.before.devices[device].token;
    CompletedTurn(t);
    ReachableFacts(t.answered);
    LeadsKeepsDevices(Claim(t.before, t.call.job, t.later), t.answered);
    assert TokenRevoked(t.answered, t.after, user, token);
    assert Unrevoked(t.answered, device, user) || t.answered.devices[device].revoked;
    forall d, e | Unrevoked(t.answered, d, user) && Unrevoked(t.answered, e, user) && t.answered.devices[d].token == t.answered.devices[e].token
      ensures d == e
    {
      assert Twins(t.answered, d, e);
    }
    forall d | Unrevoked(t.after, d, user) ensures t.after.devices[d].token != token {
      assert Unrevoked(t.answered, d, user);
    }
  }

  /** What the worker looks for: an open job whose time has come and that nobody holds. */
  predicate DueAt(s: State, j: JobId, at: int) {
    && j in s.jobs && (s.jobs[j].status == Queued || s.jobs[j].status == Processing) && s.jobs[j].nextAttemptAt <= at
    && (s.jobs[j].leaseUntil.None? || s.jobs[j].leaseUntil.value < at)
  }

  ghost predicate NothingDue(s: State, at: int) {
    forall j :: !DueAt(s, j, at)
  }

  /** The turn took a due job with the earliest next attempt. */
  ghost predicate FirstDue(t: JobTurn) {
    exists at :: t.before.now <= at <= t.at && DueAt(t.before, t.call.job, at)
      && forall j :: DueAt(t.before, j, at) ==> t.before.jobs[t.call.job].nextAttemptAt <= t.before.jobs[j].nextAttemptAt
  }

  /** A due job can be claimed, then or later. */
  lemma DueIsClaimable(s: State, j: JobId, at: int, later: int)
    requires Reachable(s) && DueAt(s, j, at) && at <= later
    ensures Claimable(s, j, later)
  {
    ReachableFacts(s);
  }

  lemma TurnIsReachable(t: JobTurn)
    requires t.Sound() && Reachable(t.before)
    ensures Reachable(t.answered)
  {
    LeadsNowhere(t.before);
    assert Leads(t.before, Claim(t.before, t.call.job, t.later)) by {
      assert Possible(t.before, ClaimJob(t.call.job, t.at, t.later));
      LeadsOn(t.before, t.before, ClaimJob(t.call.job, t.at, t.later));
    }
    StaysReachable(t.before, Claim(t.before, t.call.job, t.later));
    StaysReachable(Claim(t.before, t.call.job, t.later), t.answered);
  }

  /** Sound turns that follow one another without a gap, from one state to another. */
  ghost predicate Shift(turns: seq<JobTurn>, start: State, end: State) {
    if turns == [] then start == end
    else
      var last := turns[|turns| - 1];
      Shift(turns[..|turns| - 1], start, last.before) && last.Sound() && last.after == end
  }

  lemma ShiftGrows(turns: seq<JobTurn>, start: State, turn: JobTurn)
    requires Shift(turns, start, turn.before) && turn.Sound()
    ensures Shift(turns + [turn], start, turn.after)
  {
    assert (turns + [turn])[..|turns|] == turns;
  }
}
