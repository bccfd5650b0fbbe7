/** What provisioning keeps over every run of racing requests, workers and late answers. */
module ProvisioningRuns {
  import opened Wrappers
  import opened Provisioning

  // ---------------------------------------------------------------------------
  // Tokens and accounts

  /** An unrevoked token belongs to an account that is active at the generation it was issued for. */
  ghost predicate TokensMatch(s: State) {
    forall d :: d in s.devices && !s.devices[d].revoked ==>
      var user := s.devices[d].user;
      user in s.accounts && s.accounts[user].status == Active && s.accounts[user].generation == s.devices[d].generation
  }

  ghost predicate HasLiveToken(s: State, user: UserId) {
    exists d :: d in s.devices && s.devices[d].user == user && !s.devices[d].revoked
  }

  /** The one step that can break the match: an upsert under a user who still has an unrevoked token. */
  ghost predicate Overwrites(s: State, a: Action) {
    a.EnableAccount? && HasLiveToken(s, a.user)
  }

  lemma AnswerKeepsTokens(s: State, call: Call, answer: Option<Option<Token>>, device: DeviceId, found: Option<DeviceId>, later: int)
    requires TokensMatch(s) && device !in s.devices
    ensures TokensMatch(Reply(s, call, answer, device, found, later))
  {
    var s1 := s.(now := later, calls := s.calls - {call});
    if answer.Some? && Holds(s, call) && !Outdated(s1, call) && Finalize(s1, call, answer.value, device, found).Some? {
      assert TokensMatch(Finalize(s1, call, answer.value, device, found).value);
    }
  }

  lemma EnableKeepsTokens(s: State, a: Action)
    requires TokensMatch(s) && Possible(s, a) && a.EnableAccount?
    ensures TokensMatch(Apply(s, a)) <==> !Overwrites(s, a)
  {
  }

  lemma BumpKeepsTokens(s: State, user: UserId)
    requires TokensMatch(s) && user in s.accounts
    ensures TokensMatch(Bump(s, user))
  {
  }

  lemma DisablingKeepsTokens(s: State, a: Action)
    requires TokensMatch(s) && Possible(s, a) && (a.DisableNtfy? || a.PatchUser? || a.RemoveUser?)
    ensures TokensMatch(Apply(s, a))
  {
    if a.user in s.accounts { BumpKeepsTokens(s, a.user); }
  }

  lemma HandlersKeepTokens(s: State, a: Action)
    requires TokensMatch(s) && Possible(s, a) && !a.EnableAccount? && !a.Answer? && !a.DisableNtfy? && !a.PatchUser? && !a.RemoveUser?
    ensures TokensMatch(Apply(s, a))
  {
  }

  lemma StepKeepsTokens(s: State, a: Action)
    requires TokensMatch(s) && Possible(s, a)
    ensures TokensMatch(Apply(s, a)) <==> !Overwrites(s, a)
  {
    if a.EnableAccount? {
      EnableKeepsTokens(s, a);
    } else if a.Answer? {
      AnswerKeepsTokens(s, a.call, a.answer, a.device, a.found, a.later);
    } else if a.DisableNtfy? || a.PatchUser? || a.RemoveUser? {
      DisablingKeepsTokens(s, a);
    } else {
      HandlersKeepTokens(s, a);
    }
  }

  ghost predicate Matched(run: Run)
    requires run.Valid()
  {
    forall i :: 0 <= i < |run.states| ==> TokensMatch(run.states[i])
  }

  ghost predicate NeverOverwrites(run: Run)
    requires run.Valid()
  {
    forall i :: 0 <= i < |run.actions| ==> !Overwrites(run.states[i], run.actions[i])
  }

  lemma {:induction false} MatchedSoFar(run: Run, i: nat)
    requires run.Valid() && NeverOverwrites(run) && i < |run.states|
    ensures TokensMatch(run.states[i])
  {
    if i > 0 {
      MatchedSoFar(run, i - 1);
      assert run.StepOk(i - 1);
      StepKeepsTokens(run.states[i - 1], run.actions[i - 1]);
    }
  }

  /** Across enable, disable, user removal, resume, lease loss and late answers: every unrevoked token belongs
      to an active account of its generation in every state of a run, if and only if no enable request of the
      run overwrote an account whose user still had an unrevoked token. */
  lemma TokensMatchIff(run: Run)
    requires run.Valid()
    ensures Matched(run) <==> NeverOverwrites(run)
  {
    if NeverOverwrites(run) {
      forall i | 0 <= i < |run.states| ensures TokensMatch(run.states[i]) { MatchedSoFar(run, i); }
    }
    if Matched(run) {
      forall i | 0 <= i < |run.actions| ensures !Overwrites(run.states[i], run.actions[i]) {
        assert run.StepOk(i);
        StepKeepsTokens(run.states[i], run.actions[i]);
      }
    }
  }

  /** The guard the awaited branch lacks: where the account is not active, the upsert overwrites nothing. The
      branch that does not await always satisfies it. */
  lemma InactiveAccountsHaveNoTokens(s: State, a: Action)
    requires TokensMatch(s) && Possible(s, a) && a.EnableAccount?
    requires a.after.Some? && a.user in s.accounts ==> s.accounts[a.user].status != Active
    ensures !Overwrites(s, a)
  {
  }

  // ---------------------------------------------------------------------------
  // Generations

  /** One account across one action: generations never go back, and a disabled account leaves that status
      only by an enable request, with the next generation. */
  ghost predicate AccountEvolves(s: State, s': State, a: Action, user: UserId)
    requires user in s.accounts
  {
    && user in s'.accounts && s.accounts[user].generation <= s'.accounts[user].generation
    && (s.accounts[user].status == Disabled && s'.accounts[user].status != Disabled ==> a.EnableAccount? && a.user == user)
    && (a.EnableAccount? && a.user == user ==> s.accounts[user].generation < s'.accounts[user].generation)
  }

  lemma AnswerEvolves(s: State, call: Call, answer: Option<Option<Token>>, device: DeviceId, found: Option<DeviceId>, later: int, user: UserId)
    requires user in s.accounts
    ensures var s' := Reply(s, call, answer, device, found, later);
      && user in s'.accounts && s'.accounts[user].generation == s.accounts[user].generation
      && (s.accounts[user].status == Disabled ==> s'.accounts[user].status == Disabled)
  {
  }

  lemma StepEvolves(s: State, a: Action, user: UserId)
    requires Possible(s, a) && user in s.accounts
    ensures AccountEvolves(s, Apply(s, a), a, user)
  {
    match a {
      case Answer(call, answer, device, found, later) => AnswerEvolves(s, call, answer, device, found, later, user);
      case _ =>
    }
  }

  lemma RunStepEvolves(run: Run, i: nat, user: UserId)
    requires run.Valid() && i < |run.actions| && user in run.states[i].accounts
    ensures AccountEvolves(run.states[i], run.states[i + 1], run.actions[i], user)
  {
    assert run.StepOk(i);
    StepEvolves(run.states[i], run.actions[i], user);
  }

  ghost predicate EnabledBetween(run: Run, i: nat, j: nat, user: UserId)
    requires run.Valid() && i <= j < |run.states|
  {
    exists k :: i <= k < j && run.actions[k].EnableAccount? && run.actions[k].user == user
  }

  /** After an account is disabled, nothing makes it active again but a later enable request, and then only at a
      strictly greater generation. */
  lemma {:induction false} DisabledStaysDisabled(run: Run, i: nat, j: nat, user: UserId)
    requires run.Valid() && i <= j < |run.states|
    requires user in run.states[i].accounts && run.states[i].accounts[user].status == Disabled
    ensures user in run.states[j].accounts
    ensures var before, after := run.states[i].accounts[user], run.states[j].accounts[user];
      if EnabledBetween(run, i, j, user) then before.generation < after.generation
      else after.status == Disabled && before.generation <= after.generation
    decreases j - i
  {
    if i < j {
      DisabledStaysDisabled(run, i, j - 1, user);
      RunStepEvolves(run, j - 1, user);
      if EnabledBetween(run, i, j - 1, user) {
        assert EnabledBetween(run, i, j, user);
      }
    }
  }

  lemma {:induction false} GenerationsGrow(run: Run, i: nat, j: nat, user: UserId)
    requires run.Valid() && i <= j < |run.states| && user in run.states[i].accounts
    ensures user in run.states[j].accounts && run.states[i].accounts[user].generation <= run.states[j].accounts[user].generation
    decreases j - i
  {
    if i < j {
      GenerationsGrow(run, i, j - 1, user);
      RunStepEvolves(run, j - 1, user);
    }
  }

  // ---------------------------------------------------------------------------
  // Late answers

  /** Jobs never outrun their account, and workers remember the job they took. */
  ghost predicate JobBehind(s: State, j: JobId)
    requires j in s.jobs
  {
    var job := s.jobs[j];
    job.user.Some? && job.op != RevokeDevice ==>
      && job.user.value in s.accounts && job.payload.generation.Some?
      && job.payload.generation.value <= s.accounts[job.user.value].generation
  }

  ghost predicate CallAgrees(s: State, call: Call) {
    && call.job in s.jobs && call.user == s.jobs[call.job].user && call.op == s.jobs[call.job].op
    && call.payload == s.jobs[call.job].payload
  }

  ghost predicate JobsOk(s: State) {
    && (forall j :: j in s.jobs ==> JobBehind(s, j))
    && (forall call :: call in s.calls ==> CallAgrees(s, call))
    && (forall call, token :: (call, token) in s.stale ==> CallAgrees(s, call) && ReturnsCredentials(call.op))
  }

  /** A job keeps its owner, operation and payload for ever. */
  ghost predicate JobsKept(s: State, s': State) {
    forall j :: j in s.jobs ==>
      && j in s'.jobs && s'.jobs[j].user == s.jobs[j].user && s'.jobs[j].op == s.jobs[j].op
      && s'.jobs[j].payload == s.jobs[j].payload
  }

  /** Neither the identity of any job nor any account's username and generation has changed. */
  ghost predicate Framed(s: State, s': State) {
    && JobsKept(s, s') && s'.accounts.Keys == s.accounts.Keys
    && (forall user :: user in s.accounts ==>
          && s'.accounts[user].username == s.accounts[user].username
          && s'.accounts[user].generation == s.accounts[user].generation)
  }

  lemma FailJobFrame(s: State, call: Call, outdated: bool, later: int)
    ensures Framed(s, FailJob(s, call, outdated, later)) && FailJob(s, call, outdated, later).jobs.Keys == s.jobs.Keys
    ensures FailJob(s, call, outdated, later).calls == s.calls && FailJob(s, call, outdated, later).stale == s.stale
  {
  }

  lemma FinalizeFrame(s: State, call: Call, token: Option<Token>, device: DeviceId, found: Option<DeviceId>)
    ensures var f := Finalize(s, call, token, device, found);
      f.Some? ==> Framed(s, f.value) && f.value.jobs == s.jobs && f.value.calls == s.calls && f.value.stale == s.stale
  {
  }

  lemma CompleteFrame(s: State, call: Call, token: Option<Token>)
    requires call.job in s.jobs
    ensures var s' := CompleteJob(s, call, token);
      Framed(s, s') && s'.jobs.Keys == s.jobs.Keys && s'.calls == s.calls && s'.stale == s.stale
  {
  }

  ghost predicate ReplyFramed(s: State, s': State, call: Call) {
    && Framed(s, s') && s'.jobs.Keys == s.jobs.Keys && s'.calls <= s.calls
    && (s'.stale == s.stale || (ReturnsCredentials(call.op) && exists token :: s'.stale == s.stale + {(call, token)}))
  }

  lemma ReplyFrame(s: State, call: Call, answer: Option<Option<Token>>, device: DeviceId, found: Option<DeviceId>, later: int)
    ensures ReplyFramed(s, Reply(s, call, answer, device, found, later), call)
  {
    var s1 := s.(now := later, calls := s.calls - {call});
    if answer.None? || !Holds(s, call) {
      FailJobFrame(s1, call, false, later);
      assert ReplyFramed(s, FailJob(s1, call, false, later), call);
    } else if Outdated(s1, call) {
      assert ReplyFramed(s, s1.(stale := s1.stale + {(call, answer.value)}), call);
    } else {
      FinalizeFrame(s1, call, answer.value, device, found);
      match Finalize(s1, call, answer.value, device, found)
      case None =>
        FailJobFrame(s1, call, false, later);
        assert ReplyFramed(s, FailJob(s1, call, false, later), call);
      case Some(s2) =>
        CompleteFrame(s2, call, answer.value);
        assert ReplyFramed(s, CompleteJob(s2, call, answer.value), call);
    }
  }

  lemma StaleDoneFrame(s: State, call: Call, token: Option<Token>, cleaned: bool, id: JobId, later: int)
    requires id !in s.jobs
    ensures var s' := StaleDone(s, call, token, cleaned, id, later);
      && Framed(s, s') && s'.jobs.Keys <= s.jobs.Keys + {id} && s'.calls == s.calls && s'.stale <= s.stale
      && (id in s'.jobs ==> s'.jobs[id].user == None)
  {
    var s1 := s.(now := later, stale := s.stale - {(call, token)});
    var s2 := AfterCleanup(s1, call, token, cleaned, id, later);
    assert Framed(s, s2) && s2.jobs.Keys <= s.jobs.Keys + {id} && (id in s2.jobs ==> s2.jobs[id].user == None);
    FailJobFrame(s2, call, true, later);
    assert StaleDone(s, call, token, cleaned, id, later) == FailJob(s2, call, true, later);
  }

  lemma FramedKeepsJobs(s: State, s': State, added: set<JobId>)
    requires JobsOk(s) && Framed(s, s') && s'.jobs.Keys <= s.jobs.Keys + added && s'.calls <= s.calls
    requires forall j :: j in added && j in s'.jobs ==> j in s.jobs || s'.jobs[j].user == None
    requires forall c, token :: (c, token) in s'.stale ==> (c, token) in s.stale || (c in s.calls && ReturnsCredentials(c.op))
    ensures JobsOk(s')
  {
  }

  lemma WorkersKeepJobs(s: State, a: Action)
    requires JobsOk(s) && Possible(s, a) && (a.Answer? || a.CleanUpDone?)
    ensures JobsOk(Apply(s, a)) && JobsKept(s, Apply(s, a))
  {
    match a
    case Answer(call, answer, device, found, later) =>
      ReplyFrame(s, call, answer, device, found, later);
      FramedKeepsJobs(s, Reply(s, call, answer, device, found, later), {});
    case CleanUpDone(call, token, cleaned, id, later) =>
      StaleDoneFrame(s, call, token, cleaned, id, later);
      FramedKeepsJobs(s, StaleDone(s, call, token, cleaned, id, later), {id});
  }

  /** Jobs are kept and added ones are behind their account; workers keep what they took. */
  lemma AddedJobsKeep(s: State, s': State)
    requires JobsOk(s) && JobsKept(s, s') && s'.stale == s.stale
    requires forall j :: j in s'.jobs && j !in s.jobs ==> JobBehind(s', j)
    requires forall user :: user in s.accounts ==> user in s'.accounts && s.accounts[user].generation <= s'.accounts[user].generation
    requires forall c :: c in s'.calls && c !in s.calls ==> CallAgrees(s', c)
    ensures JobsOk(s')
  {
  }

  lemma QueueingKeepsJobs(s: State, a: Action)
    requires JobsOk(s) && Possible(s, a)
    requires a.EnableCleanup? || a.QueueProvision? || a.QueueDevice? || a.QueueRevoke? || a.ResumeJob? || a.ClaimJob?
    ensures JobsOk(Apply(s, a)) && JobsKept(s, Apply(s, a))
  {
    var s' := Apply(s, a);
    assert JobsKept(s, s') && s'.stale == s.stale;
    assert forall j :: j in s'.jobs && j !in s.jobs ==> JobBehind(s', j);
    AddedJobsKeep(s, s');
  }

  lemma EnablingKeepsJobs(s: State, a: Action)
    requires JobsOk(s) && Possible(s, a) && (a.EnableAccount? || a.Ack?)
    ensures JobsOk(Apply(s, a)) && JobsKept(s, Apply(s, a))
  {
    AddedJobsKeep(s, Apply(s, a));
  }

  lemma DisablingKeepsJobs(s: State, a: Action)
    requires JobsOk(s) && Possible(s, a) && (a.DisableNtfy? || a.PatchUser? || a.RemoveUser?)
    ensures JobsOk(Apply(s, a)) && JobsKept(s, Apply(s, a))
  {
    var s' := Apply(s, a);
    assert JobsKept(s, s') && s'.stale == s.stale;
    assert forall j :: j in s'.jobs && j !in s.jobs ==> JobBehind(s', j);
    AddedJobsKeep(s, s');
  }

  lemma StepKeepsJobs(s: State, a: Action)
    requires JobsOk(s) && Possible(s, a)
    ensures JobsOk(Apply(s, a)) && JobsKept(s, Apply(s, a))
  {
    if a.Answer? || a.CleanUpDone? {
      WorkersKeepJobs(s, a);
    } else if a.EnableAccount? || a.Ack? {
      EnablingKeepsJobs(s, a);
    } else if a.DisableNtfy? || a.PatchUser? || a.RemoveUser? {
      DisablingKeepsJobs(s, a);
    } else {
      QueueingKeepsJobs(s, a);
    }
  }

  lemma {:induction false} RunKeepsJobs(run: Run, i: nat, j: nat)
    requires run.Valid() && i <= j < |run.states|
    ensures JobsOk(run.states[j]) && JobsKept(run.states[i], run.states[j])
    decreases j
  {
    if j > 0 {
      RunKeepsJobs(run, if i < j then i else i - 1, j - 1);
      assert run.StepOk(j - 1);
      StepKeepsJobs(run.states[j - 1], run.actions[j - 1]);
    }
  }

  /** An answer, or the end of its clean-up, for job `id`. */
  predicate Concerns(a: Action, id: JobId) {
    (a.Answer? || a.CleanUpDone?) && a.call.job == id
  }

  lemma OutdatedAnswerChangesNothing(s: State, a: Action, id: JobId)
    requires Possible(s, a) && Concerns(a, id) && CallAgrees(s, a.call)
    requires id in s.jobs && s.jobs[id].user.Some? && s.jobs[id].op != RevokeDevice
    requires s.jobs[id].user.value in s.accounts && s.jobs[id].payload.generation.Some?
    requires s.jobs[id].payload.generation.value < s.accounts[s.jobs[id].user.value].generation
    ensures Apply(s, a).accounts == s.accounts && Apply(s, a).devices == s.devices
  {
    if a.Answer? {
      OutdatedReply(s, a.call, a.answer, a.device, a.found, a.later);
    }
  }

  lemma OutdatedReply(s: State, call: Call, answer: Option<Option<Token>>, device: DeviceId, found: Option<DeviceId>, later: int)
    requires call.user.Some? && call.op != RevokeDevice && call.user.value in s.accounts
    requires call.payload.Generation() < s.accounts[call.user.value].generation
    ensures var s' := Reply(s, call, answer, device, found, later); s'.accounts == s.accounts && s'.devices == s.devices
  {
  }

  /** Once a user's generation has moved on - by disabling, deleting or enabling again - no answer to a job queued
      before, whether it succeeds, fails or comes after its lease was lost, touches any account or token. */
  lemma LateAnswersChangeNothing(run: Run, i: nat, k: nat, user: UserId, id: JobId)
    requires run.Valid() && i < k < |run.actions|
    requires user in run.states[i].accounts && user in run.states[i + 1].accounts
    requires run.states[i].accounts[user].generation < run.states[i + 1].accounts[user].generation
    requires id in run.states[i].jobs && run.states[i].jobs[id].user == Some(user) && run.states[i].jobs[id].op != RevokeDevice
    requires Concerns(run.actions[k], id)
    ensures run.states[k + 1].accounts == run.states[k].accounts && run.states[k + 1].devices == run.states[k].devices
  {
    RunKeepsJobs(run, i, i);
    RunKeepsJobs(run, i, k);
    GenerationsGrow(run, i + 1, k, user);
    assert JobBehind(run.states[i], id);
    assert run.StepOk(k);
    assert CallAgrees(run.states[k], run.actions[k].call) by {
      if run.actions[k].CleanUpDone? { assert (run.actions[k].call, run.actions[k].token) in run.states[k].stale; }
    }
    OutdatedAnswerChangesNothing(run.states[k], run.actions[k], id);
  }

  // ---------------------------------------------------------------------------
  // Clean-up is never given up

  ghost predicate CleanupQueued(s: State, user: UserId, username: Username) {
    exists j :: j in s.jobs && s.jobs[j].user == Some(user) && s.jobs[j].op == DisableAccount && s.jobs[j].payload.username == username
  }

  ghost predicate CleanupOk(s: State) {
    && CleanupsOpen(s)
    && (forall user :: user in s.accounts && s.accounts[user].status == Disabled ==> CleanupQueued(s, user, s.accounts[user].username))
  }

  lemma CleanupStays(s: State, s': State, user: UserId, username: Username)
    requires JobsKept(s, s') && CleanupQueued(s, user, username)
    ensures CleanupQueued(s', user, username)
  {
  }

  lemma StepKeepsCleanup(s: State, a: Action)
    requires JobsOk(s) && CleanupOk(s) && Possible(s, a)
    ensures CleanupOk(Apply(s, a))
  {
    var s' := Apply(s, a);
    StepKeepsJobs(s, a);
    CleanupJobsStayOpen(s, a);
    forall user | user in s'.accounts && s'.accounts[user].status == Disabled
      ensures CleanupQueued(s', user, s'.accounts[user].username)
    {
      DisabledIsCovered(s, a, user);
    }
  }

  ghost predicate CleanupsOpen(s: State) {
    forall j :: j in s.jobs && IsCleanup(s.jobs[j].op) ==> s.jobs[j].status != Failed
  }

  lemma FailJobKeepsCleanups(s: State, call: Call, outdated: bool, later: int)
    requires CleanupsOpen(s) && CallAgrees(s, call) && (outdated ==> ReturnsCredentials(call.op))
    ensures CleanupsOpen(FailJob(s, call, outdated, later))
  {
  }

  lemma AnswerKeepsCleanups(s: State, call: Call, answer: Option<Option<Token>>, device: DeviceId, found: Option<DeviceId>, later: int)
    requires CleanupsOpen(s) && CallAgrees(s, call)
    ensures CleanupsOpen(Reply(s, call, answer, device, found, later))
  {
    var s1 := s.(now := later, calls := s.calls - {call});
    FailJobKeepsCleanups(s1, call, false, later);
    if answer.Some? && Holds(s, call) && !Outdated(s1, call) {
      FinalizeFrame(s1, call, answer.value, device, found);
    }
  }

  lemma HandlersKeepCleanups(s: State, a: Action)
    requires CleanupsOpen(s) && Possible(s, a) && !a.Answer? && !a.CleanUpDone?
    ensures CleanupsOpen(Apply(s, a))
  {
  }

  lemma CleanupJobsStayOpen(s: State, a: Action)
    requires JobsOk(s) && CleanupsOpen(s) && Possible(s, a)
    ensures CleanupsOpen(Apply(s, a))
  {
    match a {
      case Answer(call, answer, device, found, later) => AnswerKeepsCleanups(s, call, answer, device, found, later);
      case CleanUpDone(call, token, cleaned, id, later) =>
        var s1 := s.(now := later, stale := s.stale - {(call, token)});
        FailJobKeepsCleanups(AfterCleanup(s1, call, token, cleaned, id, later), call, true, later);
      case _ => HandlersKeepCleanups(s, a);
    }
  }

  lemma AnswerDisables(s: State, call: Call, answer: Option<Option<Token>>, device: DeviceId, found: Option<DeviceId>, later: int, user: UserId)
    requires CallAgrees(s, call) && user in s.accounts && s.accounts[user].status != Disabled
    ensures var s' := Reply(s, call, answer, device, found, later);
      user in s'.accounts && s'.accounts[user].status == Disabled ==> CleanupQueued(s, user, s.accounts[user].username)
  {
    var s' := Reply(s, call, answer, device, found, later);
    if user in s'.accounts && s'.accounts[user].status == Disabled {
      assert call.op == DisableAccount && call.user == Some(user) && call.payload.username == s.accounts[user].username;
      assert s.jobs[call.job].op == DisableAccount;
    }
  }

  /** Who can have disabled the account just now. */
  predicate Disables(s: State, a: Action, user: UserId) {
    && user in s.accounts && s.accounts[user].status != Disabled
    && ((a.DisableNtfy? && a.user == user) || (a.PatchUser? && a.user == user) || (a.RemoveUser? && a.user == user) || a.Answer?)
  }

  lemma DisabledBefore(s: State, a: Action, user: UserId)
    requires Possible(s, a) && user in Apply(s, a).accounts && Apply(s, a).accounts[user].status == Disabled && !a.Answer?
    ensures Disables(s, a, user) || (user in s.accounts && s.accounts[user].status == Disabled)
    ensures Apply(s, a).accounts[user].username == s.accounts[user].username
  {
  }

  lemma DisabledIsCovered(s: State, a: Action, user: UserId)
    requires JobsOk(s) && CleanupOk(s) && Possible(s, a) && JobsKept(s, Apply(s, a))
    requires user in Apply(s, a).accounts && Apply(s, a).accounts[user].status == Disabled
    ensures CleanupQueued(Apply(s, a), user, Apply(s, a).accounts[user].username)
  {
    var s' := Apply(s, a);
    if a.Answer? {
      ReplyFrame(s, a.call, a.answer, a.device, a.found, a.later);
      if s.accounts[user].status != Disabled { AnswerDisables(s, a.call, a.answer, a.device, a.found, a.later, user); }
      CleanupStays(s, s', user, s.accounts[user].username);
    } else {
      DisabledBefore(s, a, user);
      if Disables(s, a, user) {
        assert a.id in s'.jobs && s'.jobs[a.id].op == DisableAccount;
      } else {
        CleanupStays(s, s', user, s.accounts[user].username);
      }
    }
  }

  /** Whenever an account is disabled there is a job that removes its ntfy user, and that job is queued, being
      worked on or done: clean-up jobs are retried for ever. */
  lemma {:induction false} DisabledAccountsAreCleanedUp(run: Run, i: nat)
    requires run.Valid() && i < |run.states|
    ensures CleanupOk(run.states[i])
  {
    if i > 0 {
      DisabledAccountsAreCleanedUp(run, i - 1);
      RunKeepsJobs(run, i - 1, i - 1);
      assert run.StepOk(i - 1);
      StepKeepsCleanup(run.states[i - 1], run.actions[i - 1]);
    }
  }
}
