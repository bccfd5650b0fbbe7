/** What an answer of the provisioner does to accounts, tokens and jobs, and what the request handlers do, told from
    the tables alone (apps/server/src/notification-provisioning.ts and the request handlers). */
module ProvisioningEffects {
  import opened Wrappers
  import opened Provisioning
  import opened ProvisioningRuns

  // ---------------------------------------------------------------------------
  // Reading the tables

  /** The job is still in the hands of this worker. */
  predicate HeldBy(s: State, call: Call) {
    call.job in s.jobs && s.jobs[call.job].status == Processing && s.jobs[call.job].leaseUntil == Some(call.lease)
  }

  /** The user's account carries the username and generation of the call; a call without generation means 0. */
  predicate SameAccount(s: State, user: UserId, call: Call) {
    && user in s.accounts && s.accounts[user].username == call.payload.username
    && s.accounts[user].generation == (if call.payload.generation.Some? then call.payload.generation.value else 0)
  }

  /** The account is as the call needs it: pending for a provision, active for another device. */
  predicate Fitting(s: State, user: UserId, call: Call) {
    SameAccount(s, user, call) && s.accounts[user].status == (if call.op == Provision then Pending else Active)
  }

  predicate GivesToken(call: Call) {
    call.op == Provision || call.op == AddDevice
  }

  /** The last eight characters of a token, or all of it. */
  function LastEight(token: Token): string {
    token[(if |token| < 8 then 0 else |token| - 8)..]
  }

  ghost predicate Unrevoked(s: State, d: DeviceId, user: UserId) {
    d in s.devices && s.devices[d].user == user && !s.devices[d].revoked
  }

  // ---------------------------------------------------------------------------
  // The effects

  /** The user has an unrevoked device with the hint of this token: the one known already, or else a new one with
      this very token; no device changes. */
  ghost predicate TokenKept(s: State, s': State, user: UserId, token: Token, generation: nat) {
    if exists d :: Unrevoked(s, d, user) && LastEight(s.devices[d].token) == LastEight(token) then s'.devices == s.devices
    else exists d: DeviceId :: d !in s.devices && s'.devices == s.devices[d := Device(user, token, false, generation)]
  }

  /** The unrevoked device of the user that carries the token is revoked and stays in the table, and no other device
      changes; only if there is none does nothing happen. */
  ghost predicate TokenRevoked(s: State, s': State, user: UserId, token: Token) {
    || (exists d :: Unrevoked(s, d, user) && s.devices[d].token == token && s'.devices == s.devices[d := s.devices[d].(revoked := true)])
    || (s'.devices == s.devices && forall d :: Unrevoked(s, d, user) ==> s.devices[d].token != token)
  }

  ghost predicate AllRevoked(s: State, s': State, user: UserId) {
    && s'.devices.Keys == s.devices.Keys
    && forall d :: d in s.devices ==> s'.devices[d] == if s.devices[d].user == user then s.devices[d].(revoked := true) else s.devices[d]
  }

  /** What a successful answer does, operation by operation. */
  ghost predicate Effect(s: State, s': State, call: Call, user: UserId, token: Option<Token>) {
    match call.op
    case Provision => token.Some? && s'.accounts == s.accounts[user := Account(call.payload.username, Active, call.payload.Generation())]
                      && TokenKept(s, s', user, token.value, call.payload.Generation())
    case AddDevice => token.Some? && s'.accounts == s.accounts && TokenKept(s, s', user, token.value, call.payload.Generation())
    case RevokeDevice =>
      && s'.accounts == s.accounts
      && (if call.payload.token.Some? then TokenRevoked(s, s', user, call.payload.token.value) else s'.devices == s.devices)
    case DisableAccount =>
      if SameAccount(s, user, call)
      then AllRevoked(s, s', user) && s'.accounts == s.accounts[user := s.accounts[user].(status := Disabled)]
      else s'.devices == s.devices && s'.accounts == s.accounts
  }

  /** The waits between attempts, in seconds; clean-up goes on for ever, every six hours. */
  const WAITS: seq<int> := [60, 300, 900, 3600, 21600]

  function WaitAfter(call: Call): Option<int> {
    if 1 <= call.attempts <= |WAITS| then Some(WAITS[call.attempts - 1])
    else if GivesToken(call) then None
    else Some(6 * 3600)
  }

  /** An error: the job waits for its next attempt or, when a token job has used them up, fails - and with a provision
      its account, if that is still pending under this username and generation. */
  ghost predicate Refused(s: State, s': State, call: Call)
    requires call.job in s.jobs && call.job in s'.jobs
  {
    var job, over := s.jobs[call.job], WaitAfter(call).None?;
    && s'.devices == s.devices && s'.stale == s.stale && s'.ready == s.ready
    && s'.jobs[call.job] == job.(leaseUntil := None, status := if over then Failed else Queued,
         nextAttemptAt := if over then s'.now else s'.now + WaitAfter(call).value * 1000)
    && s'.accounts ==
         if over && call.op == Provision && call.user.Some? && Fitting(s, call.user.value, call)
         then s.accounts[call.user.value := s.accounts[call.user.value].(status := Error)] else s.accounts
  }

  ghost predicate Finished(s: State, s': State, call: Call, token: Option<Token>)
    requires call.job in s.jobs && call.job in s'.jobs
  {
    && s'.stale == s.stale && s'.ready == (if call.job in s.cleanups then s.ready + {call.job} else s.ready)
    && s'.jobs[call.job] == s.jobs[call.job].(status := Completed, leaseUntil := None, result := if GivesToken(call) then token else None)
    && (if call.user.Some? then Effect(s, s', call, call.user.value, token) else s'.accounts == s.accounts && s'.devices == s.devices)
  }

  /** The whole effect of an answer. A worker that has lost its lease does nothing. An error, or a missing token, is a
      refusal. A token for an account that has moved on is left to be cleaned up. Everything else completes the job. */
  ghost predicate AnsweredBy(s: State, s': State, call: Call, answer: Option<Option<Token>>) {
    && s'.calls == s.calls - {call} && s'.cleanups == s.cleanups && s'.jobs.Keys == s.jobs.Keys
    && (forall j :: j in s.jobs && j != call.job ==> s'.jobs[j] == s.jobs[j])
    && if !HeldBy(s, call) then s' == s.(now := s'.now, calls := s'.calls)
       else if answer == None then Refused(s, s', call)
       else if GivesToken(call) && call.user.Some? && !Fitting(s, call.user.value, call) then
         s' == s.(now := s'.now, calls := s'.calls, stale := s.stale + {(call, answer.value)})
       else if GivesToken(call) && call.user.Some? && answer.value == None then Refused(s, s', call)
       else Finished(s, s', call, answer.value)
  }

  lemma FailMeans(s: State, call: Call, later: int)
    requires HeldBy(s, call)
    ensures var s' := FailJob(s, call, false, later).(now := later);
      && call.job in s'.jobs && Refused(s, s', call) && s'.jobs.Keys == s.jobs.Keys
      && (forall j :: j in s.jobs && j != call.job ==> s'.jobs[j] == s.jobs[j])
  {
    assert WaitAfter(call) == RetryDelay(call);
  }

  lemma FinalizeMeans(s: State, call: Call, token: Option<Token>, device: DeviceId, found: Option<DeviceId>)
    requires device !in s.devices && FindsDevice(s, call, found) && call.user.Some?
    ensures var f := Finalize(s, call, token, device, found);
      if GivesToken(call) && (token == None || !Fitting(s, call.user.value, call)) then f == None
      else f.Some? && f.value == s.(accounts := f.value.accounts, devices := f.value.devices) && Effect(s, f.value, call, call.user.value, token)
  {
    var f := Finalize(s, call, token, device, found);
    var user := call.user.value;
    match call.op {
      case RevokeDevice => RevokeMeans(s, call, found);
      case DisableAccount =>
      case _ => if token.Some? { RecordMeans(s, user, token.value, device, call); }
    }
  }

  lemma RecordMeans(s: State, user: UserId, token: Token, device: DeviceId, call: Call)
    requires device !in s.devices
    ensures var s' := RecordDevice(s, user, token, device, call);
      s' == s.(devices := s'.devices) && TokenKept(s, s', user, token, call.payload.Generation())
  {
    forall t: Token ensures LastEight(t) == Hint(t) {}
    assert KnownDevice(s, user, token) <==> exists d :: Unrevoked(s, d, user) && LastEight(s.devices[d].token) == LastEight(token) by {
      if d :| Unrevoked(s, d, user) && LastEight(s.devices[d].token) == LastEight(token) {
        assert s.devices[d].user == user && !s.devices[d].revoked;
      }
      if KnownDevice(s, user, token) {
        var d :| d in s.devices && s.devices[d].user == user && !s.devices[d].revoked && Hint(s.devices[d].token) == Hint(token);
        assert Unrevoked(s, d, user);
      }
    }
  }

  lemma RevokeMeans(s: State, call: Call, found: Option<DeviceId>)
    requires FindsDevice(s, call, found) && call.user.Some? && call.op == RevokeDevice
    ensures var f := Finalize(s, call, None, 0, found);
      f.Some? && f.value == s.(devices := f.value.devices)
      && (if call.payload.token.Some? then TokenRevoked(s, f.value, call.user.value, call.payload.token.value) else f.value.devices == s.devices)
    ensures forall token, device :: Finalize(s, call, token, device, found) == Finalize(s, call, None, 0, found)
  {
    if found.Some? { assert Unrevoked(s, found.value, call.user.value); }
  }

  lemma ReplyMeans(s: State, call: Call, answer: Option<Option<Token>>, device: DeviceId, found: Option<DeviceId>, later: int)
    requires device !in s.devices && FindsDevice(s, call, found)
    ensures AnsweredBy(s, Reply(s, call, answer, device, found, later), call, answer)
  {
    var s1 := s.(now := later, calls := s.calls - {call});
    if HeldBy(s, call) {
      FailMeans(s1, call, later);
      assert FindsDevice(s1, call, found);
      if answer.Some? && call.user.Some? && (!GivesToken(call) || Fitting(s, call.user.value, call)) {
        FinalizeMeans(s1, call, answer.value, device, found);
        CompletedMeans(s, s1, call, answer.value, device, found);
      }
    }
  }

  lemma CompletedMeans(s: State, s1: State, call: Call, token: Option<Token>, device: DeviceId, found: Option<DeviceId>)
    requires HeldBy(s, call) && s1 == s.(now := s1.now, calls := s.calls - {call}) && call.user.Some?
    requires var f := Finalize(s1, call, token, device, found);
      f.Some? ==> f.value == s1.(accounts := f.value.accounts, devices := f.value.devices) && Effect(s1, f.value, call, call.user.value, token)
    ensures var f := Finalize(s1, call, token, device, found);
      f.Some? ==>
        var s' := CompleteJob(f.value, call, token);
        && Finished(s, s', call, token) && s'.jobs.Keys == s.jobs.Keys && s'.calls == s.calls - {call} && s'.cleanups == s.cleanups
        && forall j :: j in s.jobs && j != call.job ==> s'.jobs[j] == s.jobs[j]
  {
    var f := Finalize(s1, call, token, device, found);
    if f.Some? { assert Effect(s, CompleteJob(f.value, call, token), call, call.user.value, token) by { EffectCarries(s1, f.value, s, CompleteJob(f.value, call, token), call, call.user.value, token); } }
  }

  /** Effects speak of accounts and devices only. */
  lemma EffectCarries(a: State, a': State, b: State, b': State, call: Call, user: UserId, token: Option<Token>)
    requires Effect(a, a', call, user, token)
    requires a.accounts == b.accounts && a.devices == b.devices && a'.accounts == b'.accounts && a'.devices == b'.devices
    ensures Effect(b, b', call, user, token)
  {
    assert forall d :: Unrevoked(a, d, user) <==> Unrevoked(b, d, user);
  }

  // ---------------------------------------------------------------------------
  // Revocation, over runs

  ghost predicate Twins(s: State, d: DeviceId, e: DeviceId) {
    && d in s.devices && e in s.devices && !s.devices[d].revoked && !s.devices[e].revoked
    && s.devices[d].user == s.devices[e].user && LastEight(s.devices[d].token) == LastEight(s.devices[e].token)
  }

  /** No two unrevoked devices of a user share a hint, and so no two share a token. */
  ghost predicate HintsDiffer(s: State) {
    forall d, e :: Twins(s, d, e) ==> d == e
  }

  /** No device is new, none has changed hands, and none has been taken back into use. */
  ghost predicate OnlyRevoked(s: State, s': State) {
    forall d :: d in s'.devices ==> d in s.devices && (s'.devices[d] == s.devices[d] || s'.devices[d] == s.devices[d].(revoked := true))
  }

  lemma FewerKeepHints(s: State, s': State)
    requires HintsDiffer(s) && OnlyRevoked(s, s')
    ensures HintsDiffer(s')
  {
    forall d, e | Twins(s', d, e) ensures d == e { assert Twins(s, d, e); }
  }

  lemma KeptTokenKeepsHints(s: State, s': State, user: UserId, token: Token, generation: nat)
    requires HintsDiffer(s) && TokenKept(s, s', user, token, generation)
    ensures HintsDiffer(s')
  {
    if s'.devices == s.devices {
      FewerKeepHints(s, s');
    } else {
      var n: DeviceId :| n !in s.devices && s'.devices == s.devices[n := Device(user, token, false, generation)];
      forall d, e | Twins(s', d, e) ensures d == e {
        if d != n && e != n { assert Twins(s, d, e); }
        else if d == n && e != n { assert Unrevoked(s, e, user); }
        else if e == n && d != n { assert Unrevoked(s, d, user); }
      }
    }
  }

  lemma AnswerKeepsHints(s: State, s': State, call: Call, answer: Option<Option<Token>>)
    requires HintsDiffer(s) && AnsweredBy(s, s', call, answer)
    ensures HintsDiffer(s')
  {
    if s'.devices == s.devices {
      FewerKeepHints(s, s');
    } else {
      assert Effect(s, s', call, call.user.value, answer.value);
      if GivesToken(call) {
        KeptTokenKeepsHints(s, s', call.user.value, answer.value.value, call.payload.Generation());
      } else {
        FewerKeepHints(s, s');
      }
    }
  }

  lemma OthersKeepHints(s: State, a: Action)
    requires HintsDiffer(s) && Possible(s, a) && !a.Answer?
    ensures HintsDiffer(Apply(s, a))
  {
    if a.CleanUpDone? {
      StaleDoneKeepsDevices(s, a.call, a.token, a.cleaned, a.id, a.later);
    }
    assert OnlyRevoked(s, Apply(s, a));
    FewerKeepHints(s, Apply(s, a));
  }

  lemma StaleDoneKeepsDevices(s: State, call: Call, token: Option<Token>, cleaned: bool, id: JobId, later: int)
    ensures StaleDone(s, call, token, cleaned, id, later).devices == s.devices
  {
  }

  lemma {:induction false} RunKeepsHints(run: Run, i: nat)
    requires run.Valid() && i < |run.states|
    ensures HintsDiffer(run.states[i])
  {
    if i > 0 {
      RunKeepsHints(run, i - 1);
      HintsAtNext(run, i - 1);
    }
  }

  lemma HintsAtNext(run: Run, i: nat)
    requires run.Valid() && i < |run.actions| && HintsDiffer(run.states[i])
    ensures HintsDiffer(run.states[i + 1])
  {
    var s, a := run.states[i], run.actions[i];
    assert run.StepOk(i);
    if a.Answer? {
      ReplyMeans(s, a.call, a.answer, a.device, a.found, a.later);
      AnswerKeepsHints(s, run.states[i + 1], a.call, a.answer);
    } else {
      OthersKeepHints(s, a);
    }
  }

  /** Every answer in every run has exactly the effect told above. */
  lemma AnswersInRun(run: Run, i: nat)
    requires run.Valid() && i < |run.actions| && run.actions[i].Answer?
    ensures AnsweredBy(run.states[i], run.states[i + 1], run.actions[i].call, run.actions[i].answer)
  {
    var a := run.actions[i];
    assert run.StepOk(i);
    ReplyMeans(run.states[i], a.call, a.answer, a.device, a.found, a.later);
  }

  ghost function Without(s: State, d: DeviceId, user: UserId, token: Token): Device
    requires d in s.devices
  {
    if Unrevoked(s, d, user) && s.devices[d].token == token then s.devices[d].(revoked := true) else s.devices[d]
  }

  /** A revocation revokes: when the answer to a held revoke-device call succeeds, its user is left with no unrevoked
      device that carries the token; every device that did is still in the table, revoked, no other device changes, no
      account changes, and the job is complete. */
  lemma RevocationRevokes(run: Run, i: nat)
    requires run.Valid() && i < |run.actions| && run.actions[i].Answer? && run.actions[i].answer.Some?
    requires var call := run.actions[i].call;
      HeldBy(run.states[i], call) && call.op == RevokeDevice && call.user.Some? && call.payload.token.Some?
    ensures var s, s', call := run.states[i], run.states[i + 1], run.actions[i].call;
      var user, token := call.user.value, call.payload.token.value;
      && (forall d :: Unrevoked(s', d, user) ==> s'.devices[d].token != token)
      && s'.devices.Keys == s.devices.Keys && s'.accounts == s.accounts
      && (forall d :: d in s.devices ==> s'.devices[d] == Without(s, d, user, token))
      && call.job in s'.jobs && s'.jobs[call.job].status == Completed
  {
    var s, s', call := run.states[i], run.states[i + 1], run.actions[i].call;
    var user, token := call.user.value, call.payload.token.value;
    AnswersInRun(run, i);
    RunKeepsHints(run, i);
    assert Finished(s, s', call, run.actions[i].answer.value);
    forall d, e | Unrevoked(s, d, user) && Unrevoked(s, e, user) && s.devices[d].token == s.devices[e].token ensures d == e {
      assert Twins(s, d, e);
    }
    assert TokenRevoked(s, s', user, token);
  }

  /** A token handed out is kept: when the answer to a held provision or add-device call brings a token for an account
      that still fits, the account ends active under the call's username and generation, and its user has an unrevoked
      device with the hint of that token. */
  lemma TokensAreKept(run: Run, i: nat)
    requires run.Valid() && i < |run.actions| && run.actions[i].Answer? && run.actions[i].answer.Some? && run.actions[i].answer.value.Some?
    requires var call := run.actions[i].call;
      HeldBy(run.states[i], call) && GivesToken(call) && call.user.Some? && Fitting(run.states[i], call.user.value, call)
    ensures var s', call, token := run.states[i + 1], run.actions[i].call, run.actions[i].answer.value.value;
      var user := call.user.value;
      && SameAccount(s', user, call) && s'.accounts[user].status == Active
      && (exists d :: Unrevoked(s', d, user) && LastEight(s'.devices[d].token) == LastEight(token))
      && call.job in s'.jobs && s'.jobs[call.job].status == Completed && s'.jobs[call.job].result == Some(token)
  {
    var s, s', call, token := run.states[i], run.states[i + 1], run.actions[i].call, run.actions[i].answer.value.value;
    var user := call.user.value;
    AnswersInRun(run, i);
    assert Finished(s, s', call, Some(token));
    assert TokenKept(s, s', user, token, call.payload.Generation());
    if d :| Unrevoked(s, d, user) && LastEight(s.devices[d].token) == LastEight(token) {
      assert Unrevoked(s', d, user);
    } else {
      var d: DeviceId :| d !in s.devices && s'.devices == s.devices[d := Device(user, token, false, call.payload.Generation())];
      assert Unrevoked(s', d, user);
    }
  }

  // ---------------------------------------------------------------------------
  // The request handlers

  /** A job that has just been queued. */
  function Waiting(user: Option<UserId>, op: Operation, username: Username, generation: Option<nat>, token: Option<Token>, now: int): Job {
    Job(user, op, Payload(username, generation, token), Queued, 0, now, None, None)
  }

  /** The account is disabled under the next generation and loses all tokens. */
  ghost predicate ShutDown(s: State, s': State, user: UserId)
    requires user in s.accounts
  {
    && s'.accounts == s.accounts[user := Account(s.accounts[user].username, Disabled, s.accounts[user].generation + 1)]
    && AllRevoked(s, s', user)
  }

  /** Apart from job `id`, which is to remove the ntfy user, jobs are what they were - but that with `failing` the
      user's open token jobs fail. */
  ghost predicate CleanupAdded(s: State, s': State, user: UserId, id: JobId, now: int, failing: bool)
    requires user in s.accounts
  {
    && s'.jobs.Keys == s.jobs.Keys + {id}
    && s'.jobs[id] == Waiting(Some(user), DisableAccount, s.accounts[user].username, Some(s.accounts[user].generation + 1), None, now)
    && forall j :: j in s.jobs && j != id ==>
         var job := s.jobs[j];
         var hit := failing && job.user == Some(user) && (job.op == Provision || job.op == AddDevice)
                    && (job.status == Queued || job.status == Processing);
         s'.jobs[j] == if hit then job.(status := Failed, leaseUntil := None) else job
  }

  ghost predicate WorkersKept(s: State, s': State) {
    s'.calls == s.calls && s'.stale == s.stale && s'.cleanups == s.cleanups && s'.ready == s.ready
  }

  /** Disabling ntfy shuts the account down, fails the user's open token jobs and queues the removal of the ntfy user. */
  lemma DisableMeans(s: State, user: UserId, id: JobId, now: int)
    requires user in s.accounts && id !in s.jobs
    ensures var s' := Disable(s, user, id, now); ShutDown(s, s', user) && CleanupAdded(s, s', user, id, now, true) && WorkersKept(s, s') && s'.now == now
  {
  }

  /** Disabling the user does the same but leaves the user's open jobs to find out for themselves. */
  lemma DisableUserMeans(s: State, user: UserId, id: JobId, now: int)
    requires user in s.accounts && id !in s.jobs
    ensures var s' := DisableUser(s, user, id, now); ShutDown(s, s', user) && CleanupAdded(s, s', user, id, now, false) && WorkersKept(s, s') && s'.now == now
  {
  }

  /** Deleting the user shuts any account down, and queues the removal only for one that was enabled. */
  lemma DeleteUserMeans(s: State, user: UserId, id: JobId, now: int)
    requires id !in s.jobs
    ensures var s' := DeleteUser(s, user, id, now);
      && WorkersKept(s, s') && s'.now == now
      && (user !in s.accounts ==> s' == s.(now := now))
      && (user in s.accounts ==> ShutDown(s, s', user))
      && (user in s.accounts ==> if s.accounts[user].status == Disabled then s'.jobs == s.jobs else CleanupAdded(s, s', user, id, now, false))
  {
  }

  /** A resumed job starts over now; with a provision its account is pending again. */
  lemma ResumeMeans(s: State, id: JobId, user: UserId, now: int)
    requires Resumable(s, id, user)
    ensures id in s.jobs && s.jobs[id].user == Some(user) && (s.jobs[id].status == Queued || s.jobs[id].status == Failed)
    ensures var s', job := Resume(s, id, user, now), s.jobs[id];
      && s'.jobs == s.jobs[id := job.(status := Queued, attempts := 0, nextAttemptAt := now, leaseUntil := None)]
      && s'.devices == s.devices && WorkersKept(s, s')
      && (if job.op == Provision
          then user in s.accounts && s.accounts[user].username == job.payload.username && Some(s.accounts[user].generation) == job.payload.generation
               && (s.accounts[user].status == Pending || s.accounts[user].status == Error)
               && s'.accounts == s.accounts[user := s.accounts[user].(status := Pending)]
          else s'.accounts == s.accounts)
  {
  }

  /** A claim takes the job for sixty seconds and remembers what it asks for; only queued jobs and those whose lease has
      run out can be claimed. */
  lemma ClaimMeans(s: State, id: JobId, now: int, later: int)
    requires id in s.jobs
    ensures Claimable(s, id, now) <==>
      s.jobs[id].status == Queued || (s.jobs[id].status == Processing && s.jobs[id].leaseUntil.Some? && s.jobs[id].leaseUntil.value < now)
    ensures var s', job := Claim(s, id, later), s.jobs[id];
      && s'.jobs == s.jobs[id := job.(status := Processing, attempts := job.attempts + 1, leaseUntil := Some(later + 60_000))]
      && s'.calls == s.calls + {Call(id, later + 60_000, job.attempts + 1, job.user, job.op, job.payload)}
      && s'.accounts == s.accounts && s'.devices == s.devices && s'.stale == s.stale && s'.cleanups == s.cleanups && s'.ready == s.ready
  {
  }

  /** After a token was handed out for an account that had moved on: unless it could be cleaned up at once, an
      ownerless job will do it - remove the ntfy user after a provision, revoke the token otherwise; and the job fails,
      if this worker still holds it. */
  lemma StaleDoneMeans(s: State, call: Call, token: Option<Token>, cleaned: bool, id: JobId, later: int)
    requires id !in s.jobs && call.job in s.jobs
    ensures var s' := StaleDone(s, call, token, cleaned, id, later);
      var removal := Waiting(None, DisableAccount, call.payload.username, None, None, later);
      var revocation := Waiting(None, RevokeDevice, call.payload.username, None, token, later);
      var kept := if HeldBy(s, call) then s.jobs[call.job := s.jobs[call.job].(status := Failed, nextAttemptAt := later, leaseUntil := None)] else s.jobs;
      && s'.jobs == (if cleaned then kept
                     else if call.op == Provision then kept[id := removal]
                     else if token.Some? then kept[id := revocation] else kept)
      && s'.accounts == s.accounts && s'.devices == s.devices && s'.stale == s.stale - {(call, token)} && s'.calls == s.calls
  {
  }
}
