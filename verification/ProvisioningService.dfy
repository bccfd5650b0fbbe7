/** Provisioning over its tables, method by method, each proved to take the steps of the Provisioning
    machine it stands for (apps/server/src/notification-provisioning.ts and the request handlers). */
module ProvisioningService {
  import opened Wrappers
  import opened Outside
  import opened Provisioning
  import opened ProvisioningPaths
  import opened ProvisioningEffects
  import opened ProvisioningTurns

  const RETRY_DELAYS: seq<int> := [60, 300, 900, 3600, 21600]

  datatype Response =
    | Created(job: JobId)
    | InProgress(job: JobId)
    | AlreadyEnabled
    | NotFound
    | ProvisionFailed(job: JobId)
    | CleanupFailed(job: JobId)

  datatype Outcome = Done(token: Option<Token>) | Thrown | Superseded

  /** The unrevoked device of a user with a given token, if any. */
  method FindByToken(devices: map<DeviceId, Device>, user: UserId, token: Token) returns (found: Option<DeviceId>)
    ensures match found
      case Some(d) => d in devices && devices[d].user == user && !devices[d].revoked && devices[d].token == token
      case None => forall d :: d in devices && devices[d].user == user && !devices[d].revoked ==> devices[d].token != token
  {
    var todo := devices.Keys;
    while todo != {}
      invariant todo <= devices.Keys
      invariant forall d :: d in devices && d !in todo && devices[d].user == user && !devices[d].revoked ==> devices[d].token != token
      decreases todo
    {
      var d :| d in todo;
      todo := todo - {d};
      if devices[d].user == user && !devices[d].revoked && devices[d].token == token {
        return Some(d);
      }
    }
    found := None;
  }

  class ProvisioningStore {
    const answers: Call -> Option<Option<Token>>
    const cleans: (Call, Option<Token>) -> bool

    var now: int
    var accounts: map<UserId, Account>
    var devices: map<DeviceId, Device>
    var jobs: map<JobId, Job>

    ghost var calls: set<Call>
    ghost var stale: set<(Call, Option<Token>)>
    ghost var cleanups: map<JobId, UserId>
    ghost var ready: set<JobId>

    ghost function Tables(): State
      reads this
    {
      State(now, accounts, devices, jobs, calls, stale, cleanups, ready)
    }

    ghost predicate Valid()
      reads this
    {
      Reachable(Tables())
    }

    /** `answers` and `cleans` are what the provisioner will say to each request. Calls differ by job, lease and attempt,
        so this leaves any answers possible, whatever their order. */
    constructor (clock: int, answers: Call -> Option<Option<Token>>, cleans: (Call, Option<Token>) -> bool)
      ensures Valid() && Initial(Tables()) && now == clock && this.answers == answers && this.cleans == cleans
    {
      this.answers, this.cleans := answers, cleans;
      now, accounts, devices, jobs := clock, map[], map[], map[];
      calls, stale, cleanups, ready := {}, {}, map[], {};
      new;
      LeadsNowhere(Tables());
    }

    // -------------------------------------------------------------------------
    // Queueing

    method QueueProvisionJob(id: JobId, user: Option<UserId>, op: Operation, payload: Payload, at: int)
      modifies `now, `jobs
      ensures Tables() == Queue(old(Tables()), id, user, op, payload, at)
    {
      now := at;
      jobs := jobs[id := Job(user, op, payload, Queued, 0, at, None, None)];
    }

    method RevokeTokens(user: UserId)
      modifies `devices
      ensures devices == RevokeAll(old(devices), user)
    {
      devices := map d | d in devices :: if devices[d].user == user then devices[d].(revoked := true) else devices[d];
    }

    method DisableRows(user: UserId)
      requires user in accounts
      modifies `accounts, `devices
      ensures Tables() == Bump(old(Tables()), user)
    {
      accounts := accounts[user := accounts[user].(status := Disabled, generation := accounts[user].generation + 1)];
      RevokeTokens(user);
    }

    method QueueDisableAccount(id: JobId, user: UserId, at: int)
      requires user in accounts
      modifies `now, `jobs
      ensures Tables() == QueueDisable(old(Tables()), id, user, at)
    {
      var account := accounts[user];
      QueueProvisionJob(id, Some(user), DisableAccount, Payload(account.username, Some(account.generation), None), at);
    }

    /** DELETE /api/notifications/ntfy */
    method DisableNtfy(user: UserId) returns (reply: Response)
      requires Valid()
      modifies this
      ensures Valid() && Leads(old(Tables()), Tables())
      ensures reply == NotFound <==> !Enabled?(old(Tables()), user)
      ensures reply == NotFound ==> Tables() == old(Tables())
      ensures reply != NotFound ==> reply.Created? && Tables() == Disable(old(Tables()), user, reply.job, now)
    {
      LeadsNowhere(Tables());
      if user !in accounts || accounts[user].status == Disabled {
        return NotFound;
      }
      var id := Unused(jobs.Keys);
      var at := ReadClock(now);
      LeadsOn(Tables(), Tables(), Action.DisableNtfy(user, id, at));
      DisableRows(user);
      jobs := map j | j in jobs ::
        if jobs[j].user == Some(user) && (jobs[j].op == Provision || jobs[j].op == AddDevice)
           && (jobs[j].status == Queued || jobs[j].status == Processing)
        then jobs[j].(status := Failed, leaseUntil := None) else jobs[j];
      assert jobs == FailOpenJobs(old(jobs), user);
      QueueDisableAccount(id, user, at);
      reply := Created(id);
      StaysReachable(old(Tables()), Tables());
    }

    /** The part of PATCH /api/users/:id that concerns ntfy, for a user who becomes disabled. */
    method PatchDisabledUser(user: UserId)
      requires Valid()
      modifies this
      ensures Valid() && Leads(old(Tables()), Tables())
      ensures Enabled?(old(Tables()), user) ==> exists id :: id !in old(jobs) && Tables() == DisableUser(old(Tables()), user, id, now)
      ensures !Enabled?(old(Tables()), user) ==> Tables() == old(Tables())
    {
      LeadsNowhere(Tables());
      if user in accounts && accounts[user].status != Disabled {
        var id := Unused(jobs.Keys);
        var at := ReadClock(now);
        LeadsOn(Tables(), Tables(), PatchUser(user, id, at));
        DisableRows(user);
        QueueDisableAccount(id, user, at);
        StaysReachable(old(Tables()), Tables());
      }
    }

    /** The part of DELETE /api/users/:id that concerns ntfy. */
    method RemoveUserAccount(user: UserId)
      requires Valid()
      modifies this
      ensures Valid() && Leads(old(Tables()), Tables())
      ensures exists id :: id !in old(jobs) && Tables() == DeleteUser(old(Tables()), user, id, now)
    {
      var id := Unused(jobs.Keys);
      var at := ReadClock(now);
      LeadsNowhere(Tables());
      LeadsOn(Tables(), Tables(), RemoveUser(user, id, at));
      if user in accounts {
        var enabled := accounts[user].status != Disabled;
        DisableRows(user);
        if enabled {
          QueueDisableAccount(id, user, at);
        }
      }
      now := at;
      StaysReachable(old(Tables()), Tables());
    }

    // -------------------------------------------------------------------------
    // resumeProvisionJob

    method ResetJob(id: JobId, user: UserId, at: int) returns (resumed: bool)
      requires Valid() && now <= at
      modifies this
      ensures resumed <==> Resumable(old(Tables()), id, user)
      ensures Tables() == if resumed then Resume(old(Tables()), id, user, at) else old(Tables())
      ensures Valid() && Leads(old(Tables()), Tables())
    {
      LeadsNowhere(Tables());
      if id !in jobs || jobs[id].user != Some(user) || (jobs[id].status != Queued && jobs[id].status != Failed) {
        return false;
      }
      var payload := jobs[id].payload;
      if jobs[id].op == Provision {
        if user !in accounts || accounts[user].username != payload.username || payload.generation != Some(accounts[user].generation)
           || (accounts[user].status != Pending && accounts[user].status != Error) {
          return false;
        }
      }
      LeadsOn(Tables(), Tables(), ResumeJob(id, user, at));
      if jobs[id].op == Provision {
        accounts := accounts[user := accounts[user].(status := Pending)];
      }
      jobs := jobs[id := jobs[id].(status := Queued, attempts := 0, nextAttemptAt := at, leaseUntil := None)];
      now := at;
      resumed := true;
      StaysReachable(old(Tables()), Tables());
    }

    // -------------------------------------------------------------------------
    // processJob, up to the request

    method ClaimRow(id: JobId, at: int, later: int) returns (claim: Option<Call>)
      requires Valid() && now <= at <= later
      modifies this
      ensures claim.Some? <==> Claimable(old(Tables()), id, at)
      ensures claim.None? ==> Tables() == old(Tables())
      ensures claim.Some? ==>
        && claim.value == CallOf(old(Tables()), id, later) && claim.value in calls
        && Tables() == Claim(old(Tables()), id, later)
      ensures Valid() && Leads(old(Tables()), Tables())
    {
      LeadsNowhere(Tables());
      if id !in jobs || !(jobs[id].status == Queued
                          || (jobs[id].status == Processing && jobs[id].leaseUntil.Some? && jobs[id].leaseUntil.value < at)) {
        return None;
      }
      LeadsOn(Tables(), Tables(), ClaimJob(id, at, later));
      jobs := jobs[id := jobs[id].(status := Processing, attempts := jobs[id].attempts + 1, leaseUntil := Some(later + LEASE_MS))];
      var job := jobs[id];
      claim := Some(Call(id, later + LEASE_MS, job.attempts, job.user, job.op, job.payload));
      now, calls := later, calls + {claim.value};
      StaysReachable(old(Tables()), Tables());
    }

    // -------------------------------------------------------------------------
    // processJob, after the answer

    predicate HoldsLease(call: Call)
      reads `jobs
    {
      call.job in jobs && jobs[call.job].status == Processing && jobs[call.job].leaseUntil == Some(call.lease)
    }

    /** Whether the account is still the one a credential job was made for. */
    predicate Current(call: Call, user: UserId)
      reads `accounts
    {
      && user in accounts && accounts[user].username == call.payload.username
      && accounts[user].generation == call.payload.Generation()
      && accounts[user].status == (if call.op == Provision then Pending else Active)
    }

    /** The catch block. */
    method FailRow(call: Call, outdated: bool, at: int)
      modifies `jobs, `accounts
      ensures Tables() == FailJob(old(Tables()), call, outdated, at)
    {
      if !HoldsLease(call) {
        return;
      }
      var delay: Option<int> := None;
      if !outdated {
        if 1 <= call.attempts <= |RETRY_DELAYS| {
          delay := Some(RETRY_DELAYS[call.attempts - 1]);
        } else if call.op == DisableAccount || call.op == RevokeDevice {
          delay := Some(CLEANUP_RETRY_SECONDS);
        }
      }
      assert delay == if outdated then None else RetryDelay(call);
      var row := jobs[call.job].(leaseUntil := None);
      if delay.None? {
        jobs := jobs[call.job := row.(status := Failed, nextAttemptAt := at)];
        if !outdated && call.op == Provision && call.user.Some? && Current(call, call.user.value) {
          accounts := accounts[call.user.value := accounts[call.user.value].(status := Error)];
        }
      } else {
        jobs := jobs[call.job := row.(status := Queued, nextAttemptAt := at + delay.value * 1000)];
      }
    }

    /** The device lookup by token hint. */
    method HintKnown(user: UserId, token: Token) returns (known: bool)
      ensures known <==> KnownDevice(Tables(), user, token)
    {
      var todo := devices.Keys;
      while todo != {}
        invariant todo <= devices.Keys
        invariant forall d :: d in devices && d !in todo && devices[d].user == user && !devices[d].revoked ==> Hint(devices[d].token) != Hint(token)
        decreases todo
      {
        var d :| d in todo;
        todo := todo - {d};
        if devices[d].user == user && !devices[d].revoked && Hint(devices[d].token) == Hint(token) {
          return true;
        }
      }
      known := false;
    }

    method StoreToken(call: Call, user: UserId, token: Token, device: DeviceId)
      modifies `devices
      ensures Tables() == RecordDevice(old(Tables()), user, token, device, call)
    {
      var known := HintKnown(user, token);
      if !known {
        devices := devices[device := Device(user, token, false, call.payload.Generation())];
      }
    }

    /** finalizeProvisioning; `ok` is false when it throws. */
    method FinalizeProvisioning(call: Call, token: Option<Token>, device: DeviceId) returns (ok: bool, ghost found: Option<DeviceId>)
      modifies `accounts, `devices
      ensures FindsDevice(old(Tables()), call, found)
      ensures ok <==> Finalize(old(Tables()), call, token, device, found).Some?
      ensures ok <==> !(GivesToken(call) && call.user.Some? && (token.None? || !Fitting(old(Tables()), call.user.value, call)))
      ensures Tables() == if ok then Finalize(old(Tables()), call, token, device, found).value else old(Tables())
    {
      ok, found := true, None;
      if call.user.None? {
        return;
      }
      var user := call.user.value;
      if call.op == Provision || call.op == AddDevice {
        if token.None? || !Current(call, user) {
          ok := false;
          return;
        }
        StoreToken(call, user, token.value, device);
        if call.op == Provision {
          accounts := accounts[user := accounts[user].(status := Active)];
        }
      } else if call.op == RevokeDevice {
        if call.payload.token.Some? {
          var row := FindByToken(devices, user, call.payload.token.value);
          found := row;
          if row.Some? {
            devices := devices[row.value := devices[row.value].(revoked := true)];
          }
        }
      } else if user in accounts && accounts[user].username == call.payload.username
                && accounts[user].generation == call.payload.Generation() {
        accounts := accounts[user := accounts[user].(status := Disabled)];
        RevokeTokens(user);
      }
    }

    /** What processJob does with the provisioner's answer, up to a clean-up request if one is due. */
    method Settle(call: Call, answer: Option<Option<Token>>, at: int) returns (outcome: Outcome)
      requires Valid() && call in calls && now <= at
      modifies this
      ensures AnsweredBy(old(Tables()), Tables(), call, answer) && now == at
      ensures outcome.Superseded? <==> Supersedes(old(Tables()), call, answer)
      ensures outcome.Superseded? ==> (call, answer.value) in stale
      ensures outcome.Done? <==> Completes(old(Tables()), call, answer)
      ensures outcome.Done? ==> answer == Some(outcome.token) && (call.job in cleanups ==> call.job in ready)
      ensures Valid() && Leads(old(Tables()), Tables())
    {
      ghost var before := Tables();
      var device := Unused(devices.Keys);
      ghost var found;
      outcome, found := HandleAnswer(call, answer, device, at);
      ReplyMeans(before, call, answer, device, found, at);
      LeadsNowhere(before);
      LeadsOn(before, before, Answer(call, answer, device, found, at));
      StaysReachable(before, Tables());
    }

    method HandleAnswer(call: Call, answer: Option<Option<Token>>, device: DeviceId, at: int) returns (outcome: Outcome, ghost found: Option<DeviceId>)
      modifies this
      ensures FindsDevice(old(Tables()), call, found) && Tables() == Reply(old(Tables()), call, answer, device, found, at)
      ensures outcome.Superseded? <==> Supersedes(old(Tables()), call, answer)
      ensures outcome.Superseded? ==> (call, answer.value) in stale
      ensures outcome.Done? <==> Completes(old(Tables()), call, answer)
      ensures outcome.Done? ==> answer == Some(outcome.token) && (call.job in cleanups ==> call.job in ready)
    {
      found := SomeFound(Tables(), call);
      now, calls := at, calls - {call};
      if answer.None? || !HoldsLease(call) {
        FailRow(call, false, at);
        outcome := Thrown;
      } else if (call.op == Provision || call.op == AddDevice) && call.user.Some? && !Current(call, call.user.value) {
        stale := stale + {(call, answer.value)};
        outcome := Superseded;
      } else {
        outcome, found := Complete(call, answer.value, device, at);
      }
    }

    /** The completing transaction. */
    method Complete(call: Call, token: Option<Token>, device: DeviceId, at: int) returns (outcome: Outcome, ghost found: Option<DeviceId>)
      requires HoldsLease(call)
      requires GivesToken(call) && call.user.Some? ==> Fitting(Tables(), call.user.value, call)
      modifies `accounts, `devices, `jobs, `ready
      ensures FindsDevice(old(Tables()), call, found)
      ensures Tables() == match Finalize(old(Tables()), call, token, device, found)
        case None => FailJob(old(Tables()), call, false, at)
        case Some(s2) => CompleteJob(s2, call, token)
      ensures outcome == if GivesToken(call) && call.user.Some? && token.None? then Thrown else Done(token)
      ensures outcome.Done? && call.job in cleanups ==> call.job in ready
    {
      var ok;
      ok, found := FinalizeProvisioning(call, token, device);
      if ok {
        jobs := jobs[call.job := jobs[call.job].(status := Completed, leaseUntil := None,
          result := if call.op == Provision || call.op == AddDevice then token else None)];
        ready := if call.job in cleanups then ready + {call.job} else ready;
        outcome := Done(token);
      } else {
        FailRow(call, false, at);
        outcome := Thrown;
      }
    }

    /** After the clean-up request for a superseded answer. */
    method FinishStale(call: Call, token: Option<Token>, cleaned: bool, at: int)
      requires Valid() && (call, token) in stale && now <= at
      modifies this
      ensures exists id :: id !in old(jobs) && Tables() == StaleDone(old(Tables()), call, token, cleaned, id, at)
      ensures Valid() && Leads(old(Tables()), Tables())
    {
      var id := Unused(jobs.Keys);
      ghost var before := Tables();
      now, stale := at, stale - {(call, token)};
      if !cleaned {
        if call.op == Provision {
          QueueProvisionJob(id, None, DisableAccount, Payload(call.payload.username, None, None), at);
        } else if token.Some? {
          QueueProvisionJob(id, None, RevokeDevice, Payload(call.payload.username, None, token), at);
        }
      }
      FailRow(call, true, at);
      assert Tables() == StaleDone(before, call, token, cleaned, id, at);
      LeadsNowhere(before);
      LeadsOn(before, before, CleanUpDone(call, token, cleaned, id, at));
      StaysReachable(before, Tables());
    }

    // -------------------------------------------------------------------------
    // Requests to the provisioner

    /** A request to the provisioner. While it is awaited other code may take any actions that leave this
        worker's call alone; callers know nothing more than what is ensured here. */
    method AwaitProvisioner(call: Call) returns (answer: Option<Option<Token>>)
      requires Valid() && call in calls
      modifies this
      ensures Valid() && call in calls && Leads(old(Tables()), Tables()) && answer == answers(call)
    {
      LeadsNowhere(Tables());
      answer := answers(call);
    }

    method AwaitCleanup(call: Call, token: Option<Token>) returns (cleaned: bool)
      requires Valid() && (call, token) in stale
      modifies this
      ensures Valid() && (call, token) in stale && Leads(old(Tables()), Tables()) && cleaned == cleans(call, token)
    {
      LeadsNowhere(Tables());
      cleaned := cleans(call, token);
    }

    /** The turn went by the provisioner's answers. */
    ghost predicate Answered(t: JobTurn) {
      t.answer == answers(t.call) && (t.Superseded() ==> t.tidy == cleans(t.call, t.answer.value))
    }

    /** What a turn of the worker on job `id` is; `result` is what it was answered, if that completed the job. */
    ghost predicate Worked(id: JobId, s: State, t: JobTurn, result: Option<Option<Token>>)
      reads this
    {
      && t.Sound() && Answered(t) && t.before == s && t.call.job == id && t.after == Tables()
      && (result.Some? <==> t.Completed()) && (result.Some? ==> result == t.answer)
    }

    /** processJob: `result` is None when it throws. It takes a turn exactly if the job can be claimed, and succeeds
        exactly if that turn completes the job. Whatever happens during the awaits, the worker only ever takes actions
        of the machine. */
    method ProcessJob(id: JobId, since: int) returns (result: Option<Option<Token>>, ghost turn: Option<JobTurn>)
      requires Valid() && now <= since
      modifies this
      ensures Valid() && Leads(old(Tables()), Tables())
      ensures turn.None? ==> result.None? && Tables() == old(Tables()) && exists at :: since <= at && !Claimable(Tables(), id, at)
      ensures turn.Some? ==> Worked(id, old(Tables()), turn.value, result) && since <= turn.value.at
      ensures result.Some? && id in cleanups ==> id in ready
    {
      ghost var before := Tables();
      LeadsNowhere(before);
      var at := ReadClock(since);
      var later := ReadClock(at);
      var claim := ClaimRow(id, at, later);
      if claim.None? {
        return None, None;
      }
      ghost var states;
      result, states := Work(claim.value);
      LeadsTogether(before, states.0, Tables());
      var answer := answers(claim.value);
      turn := Some(JobTurn(before, at, later, claim.value, states.1, answer, states.2, states.3,
                           cleans(claim.value, if answer.Some? then answer.value else None), Tables()));
    }

    /** The rest of processJob, with the states after the claim, at the answer, after handling it, and at the answer to
        a clean-up request. */
    method Work(call: Call) returns (result: Option<Option<Token>>, ghost states: (State, State, State, State))
      requires Valid() && call in calls
      modifies this
      ensures Valid() && Leads(old(Tables()), Tables()) && states.0 == old(Tables()) && Leads(states.0, states.1)
      ensures AnsweredBy(states.1, states.2, call, answers(call)) && states.1.now <= states.2.now
      ensures
        if Supersedes(states.1, call, answers(call)) then
          && Leads(states.2, states.3)
          && exists id, now :: id !in states.3.jobs
               && Tables() == StaleDone(states.3, call, answers(call).value, cleans(call, answers(call).value), id, now)
        else Tables() == states.2
      ensures result.Some? <==> Completes(states.1, call, answers(call))
      ensures result.Some? ==> result == answers(call) && (call.job in cleanups ==> call.job in ready)
    {
      ghost var claimed := Tables();
      var answer := AwaitProvisioner(call);
      ghost var answered := Tables();
      var at := ReadClock(now);
      var outcome := Settle(call, answer, at);
      ghost var settled := Tables();
      LeadsTogether(claimed, answered, settled);
      states := (claimed, answered, settled, settled);
      if outcome.Superseded? {
        ghost var cleaned := CleanUp(call, answer.value);
        states := (claimed, answered, settled, cleaned);
        LeadsTogether(claimed, settled, Tables());
      }
      result := if outcome.Done? then Some(outcome.token) else None;
    }

    method CleanUp(call: Call, token: Option<Token>) returns (ghost answered: State)
      requires Valid() && (call, token) in stale
      modifies this
      ensures Valid() && Leads(old(Tables()), Tables()) && Leads(old(Tables()), answered)
      ensures exists id, now :: id !in answered.jobs && Tables() == StaleDone(answered, call, token, cleans(call, token), id, now)
    {
      var cleaned := AwaitCleanup(call, token);
      answered := Tables();
      var at := ReadClock(now);
      FinishStale(call, token, cleaned, at);
      LeadsTogether(old(Tables()), answered, Tables());
    }

    /** The user has an active account and an unrevoked device. */
    ghost predicate Served(user: UserId)
      reads this
    {
      user in accounts && accounts[user].status == Active && exists d :: Unrevoked(Tables(), d, user)
    }

    /** resumeProvisionJob */
    method ResumeProvisionJob(id: JobId, user: UserId) returns (result: Option<Option<Token>>, ghost turn: Option<JobTurn>)
      requires Valid()
      modifies this
      ensures Valid() && Leads(old(Tables()), Tables())
      ensures !Resumable(old(Tables()), id, user) ==> result == None && Tables() == old(Tables())
      ensures Resumable(old(Tables()), id, user) ==>
        turn.Some? && exists at :: old(now) <= at && turn.value.before == Resume(old(Tables()), id, user, at)
      ensures turn.Some? ==> Worked(id, turn.value.before, turn.value, result)
      ensures result.Some? ==> turn.Some?
    {
      var at := ReadClock(now);
      var resumed := ResetJob(id, user, at);
      if !resumed {
        return None, None;
      }
      ghost var reset := Tables();
      result, turn := ProcessJob(id, at);
      LeadsTogether(old(Tables()), reset, Tables());
    }

    // -------------------------------------------------------------------------
    // Request handlers that await the provisioner

    /** The latest job row of one operation for the user's present account, as the handlers look it up. */
    ghost predicate Latest(user: UserId, op: Operation, latest: Option<JobId>)
      reads this
    {
      user in accounts ==>
        match latest
        case Some(j) => ForAccount(j, user, op)
        case None => forall j :: !ForAccount(j, user, op)
    }

    predicate ForAccount(j: JobId, user: UserId, op: Operation)
      reads this
      requires user in accounts
    {
      && j in jobs && jobs[j].user == Some(user) && jobs[j].op == op
      && jobs[j].payload.username == accounts[user].username && jobs[j].payload.generation == Some(accounts[user].generation)
    }

    method QueueCleanup(user: UserId) returns (id: JobId)
      requires Valid() && user in accounts && (accounts[user].status == Pending || accounts[user].status == Error)
      modifies this
      ensures Valid() && Leads(old(Tables()), Tables()) && Waits(Tables(), id, user) && accounts == old(accounts)
      ensures id in jobs && jobs[id] == Waiting(Some(user), DisableAccount, accounts[user].username, Some(accounts[user].generation), None, now)
    {
      id := Unused(jobs.Keys);
      var at := ReadClock(now);
      LeadsNowhere(Tables());
      LeadsOn(Tables(), Tables(), EnableCleanup(user, id, at));
      QueueProvisionJob(id, Some(user), DisableAccount, Payload(accounts[user].username, Some(accounts[user].generation), None), at);
      cleanups := cleanups[id := user];
      StaysReachable(old(Tables()), Tables());
    }

    /** The upsert of the enable handler; `after` is the clean-up job it has waited for. */
    method UpsertAccount(user: UserId, after: Option<JobId>)
      requires Valid()
      requires match after
        case None => user in accounts ==> accounts[user].status == Disabled
        case Some(j) => j in ready && j in cleanups && cleanups[j] == user
      modifies this
      ensures Valid() && Leads(old(Tables()), Tables())
      ensures user in accounts && accounts == old(accounts)[user := accounts[user]] && accounts[user].status == Pending
      ensures forall u :: u in old(accounts) ==> old(accounts)[u].username != accounts[user].username
      ensures accounts[user].generation == if user in old(accounts) then old(accounts)[user].generation + 1 else 0
    {
      var username := Unused(set u | u in accounts :: accounts[u].username);
      LeadsNowhere(Tables());
      LeadsOn(Tables(), Tables(), EnableAccount(user, username, after));
      accounts := accounts[user := Account(username, Pending, if user in accounts then accounts[user].generation + 1 else 0)];
      ready := if after.Some? then ready - {after.value} else ready;
      StaysReachable(old(Tables()), Tables());
    }

    method QueueCredentials(user: UserId, op: Operation) returns (id: JobId)
      requires Valid() && user in accounts
      requires op == Provision || (op == AddDevice && accounts[user].status == Active)
      modifies this
      ensures Valid() && Leads(old(Tables()), Tables())
      ensures accounts == old(accounts)
      ensures id in jobs && jobs[id] == Waiting(Some(user), op, accounts[user].username, Some(accounts[user].generation), None, now)
    {
      id := Unused(jobs.Keys);
      var at := ReadClock(now);
      LeadsNowhere(Tables());
      LeadsOn(Tables(), Tables(), if op == Provision then QueueProvision(user, id, at) else QueueDevice(user, id, at));
      QueueProvisionJob(id, Some(user), op, Payload(accounts[user].username, Some(accounts[user].generation), None), at);
      StaysReachable(old(Tables()), Tables());
    }

    /** The end of the enable and add-device handlers: queue the job and try it at once. */
    method CreateCredentials(user: UserId, op: Operation) returns (reply: Response)
      requires Valid() && user in accounts
      requires op == Provision || (op == AddDevice && accounts[user].status == Active)
      modifies this
      ensures Valid() && Leads(old(Tables()), Tables())
      ensures reply.Created? || reply.ProvisionFailed?
      ensures reply.Created? ==> Served(user)
    {
      var id := QueueCredentials(user, op);
      ghost var queued := Tables();
      var result, turn := ProcessJob(id, now);
      LeadsTogether(old(Tables()), queued, Tables());
      if result.Some? { CompletedTokenTurn(turn.value); }
      reply := if result.Some? then Created(id) else ProvisionFailed(id);
    }

    method ResumeCredentials(id: JobId, user: UserId) returns (reply: Response)
      requires Valid()
      modifies this
      ensures Valid() && Leads(old(Tables()), Tables())
      ensures reply == Created(id) || reply == ProvisionFailed(id)
      ensures reply.Created? && id in old(jobs) && (old(jobs)[id].op == Provision || old(jobs)[id].op == AddDevice) ==> Served(user)
    {
      var result, turn := ResumeProvisionJob(id, user);
      if result.Some? && GivesToken(turn.value.call) { CompletedTokenTurn(turn.value); }
      reply := if result.Some? then Created(id) else ProvisionFailed(id);
    }

    /** POST /api/notifications/ntfy/enable */
    method EnableNtfy(user: UserId, latest: Option<JobId>) returns (reply: Response)
      requires Valid() && Latest(user, Provision, latest)
      modifies this
      ensures Valid() && Leads(old(Tables()), Tables())
      ensures reply.AlreadyEnabled? || reply.InProgress? ==> Tables() == old(Tables())
      ensures user in old(accounts) && old(accounts)[user].status == Active ==> Tables() == old(Tables())
      ensures reply.Created? ==> Served(user)
      ensures reply.AlreadyEnabled? ==> user in old(accounts) && old(accounts)[user].status == Active
      ensures reply.InProgress? <==>
        && user in old(accounts) && old(accounts)[user].status != Disabled && latest.Some?
        && ((old(jobs)[latest.value].status == Completed && old(jobs)[latest.value].result.Some?)
            || (old(jobs)[latest.value].status == Processing && old(accounts)[user].status != Active))
    {
      LeadsNowhere(Tables());
      if user in accounts && accounts[user].status == Active {
        if latest.Some? && jobs[latest.value].status == Completed && jobs[latest.value].result.Some? {
          return InProgress(latest.value);
        }
        return AlreadyEnabled;
      }
      if user in accounts && (accounts[user].status == Pending || accounts[user].status == Error) && latest.Some? {
        var job := jobs[latest.value];
        if job.status == Processing || (job.status == Completed && job.result.Some?) {
          return InProgress(latest.value);
        }
        if job.status == Queued || job.status == Failed {
          reply := ResumeCredentials(latest.value, user);
          return;
        }
      }
      reply := EnableAnew(user);
    }

    /** The rest of the enable handler: clean up a half-made account, then make a new one. */
    method EnableAnew(user: UserId) returns (reply: Response)
      requires Valid() && (user in accounts ==> accounts[user].status != Active)
      modifies this
      ensures Valid() && Leads(old(Tables()), Tables())
      ensures reply.Created? || reply.ProvisionFailed? || reply.CleanupFailed?
      ensures reply.Created? ==> Served(user)
    {
      ghost var start := Tables();
      LeadsNowhere(start);
      var after: Option<JobId> := None;
      if user in accounts && (accounts[user].status == Pending || accounts[user].status == Error) {
        var id := QueueCleanup(user);
        ghost var queued := Tables();
        var result, turn := ProcessJob(id, now);
        LeadsTogether(start, queued, Tables());
        KeepsWaiting(queued, Tables(), id, user);
        if result.None? {
          return CleanupFailed(id);
        }
        after := Some(id);
      }
      ghost var cleaned := Tables();
      UpsertAccount(user, after);
      ghost var upserted := Tables();
      LeadsTogether(start, cleaned, upserted);
      reply := CreateCredentials(user, Provision);
      LeadsTogether(start, upserted, Tables());
    }

    /** POST /api/notifications/ntfy/devices */
    method AddDeviceNtfy(user: UserId, latest: Option<JobId>) returns (reply: Response)
      requires Valid() && Latest(user, AddDevice, latest)
      modifies this
      ensures Valid() && Leads(old(Tables()), Tables())
      ensures reply == NotFound <==> !(user in old(accounts) && old(accounts)[user].status == Active)
      ensures reply == NotFound || reply.InProgress? ==> Tables() == old(Tables())
      ensures reply.Created? ==> Served(user)
    {
      LeadsNowhere(Tables());
      if user !in accounts || accounts[user].status != Active {
        return NotFound;
      }
      if latest.Some? {
        var job := jobs[latest.value];
        if job.status == Processing || (job.status == Completed && job.result.Some?) {
          return InProgress(latest.value);
        }
        if job.status == Queued || job.status == Failed {
          reply := ResumeCredentials(latest.value, user);
          return;
        }
      }
      reply := CreateCredentials(user, AddDevice);
    }

    method QueueRevocation(user: UserId, device: DeviceId) returns (id: JobId)
      requires Valid() && device in devices && devices[device].user == user && !devices[device].revoked && user in accounts
      modifies this
      ensures Valid() && Leads(old(Tables()), Tables()) && devices == old(devices) && accounts == old(accounts)
      ensures id in jobs && jobs[id] == Waiting(Some(user), RevokeDevice, accounts[user].username, None, Some(devices[device].token), now)
    {
      id := Unused(jobs.Keys);
      var at := ReadClock(now);
      LeadsNowhere(Tables());
      LeadsOn(Tables(), Tables(), QueueRevoke(user, device, id, at));
      QueueProvisionJob(id, Some(user), RevokeDevice, Payload(accounts[user].username, None, Some(devices[device].token)), at);
      StaysReachable(old(Tables()), Tables());
    }

    /** DELETE /api/notifications/ntfy/devices/:id */
    method RevokeDeviceNtfy(user: UserId, device: DeviceId) returns (reply: Response)
      requires Valid()
      modifies this
      ensures Valid() && Leads(old(Tables()), Tables())
      ensures reply == NotFound <==>
        !(device in old(devices) && old(devices)[device].user == user && !old(devices)[device].revoked && user in old(accounts))
      ensures reply == NotFound ==> Tables() == old(Tables())
      ensures reply.Created? ==> device in devices && devices[device] == old(devices)[device].(revoked := true)
      ensures reply.Created? ==>
        forall d :: d in devices && devices[d].user == user && !devices[d].revoked ==> devices[d].token != old(devices)[device].token
    {
      LeadsNowhere(Tables());
      if device !in devices || devices[device].user != user || devices[device].revoked || user !in accounts {
        return NotFound;
      }
      var id := QueueRevocation(user, device);
      ghost var queued := Tables();
      var result, turn := ProcessJob(id, now);
      LeadsTogether(old(Tables()), queued, Tables());
      if result.Some? {
        TurnIsReachable(turn.value);
        CompletedRevocation(turn.value, device, user);
        assert forall d :: d in devices && devices[d].user == user && !devices[d].revoked ==> Unrevoked(Tables(), d, user);
      }
      reply := if result.Some? then Created(id) else ProvisionFailed(id);
    }

    // -------------------------------------------------------------------------
    // The worker

    predicate Due(id: JobId, at: int)
      reads `jobs
    {
      && id in jobs && (jobs[id].status == Queued || jobs[id].status == Processing) && jobs[id].nextAttemptAt <= at
      && (jobs[id].leaseUntil.None? || jobs[id].leaseUntil.value < at)
    }

    method FirstDueJob(at: int) returns (job: Option<JobId>)
      ensures match job
        case None => forall j :: j in jobs ==> !Due(j, at)
        case Some(id) => Due(id, at) && forall j :: j in jobs && Due(j, at) ==> jobs[id].nextAttemptAt <= jobs[j].nextAttemptAt
    {
      job := None;
      var todo := jobs.Keys;
      while todo != {}
        invariant todo <= jobs.Keys
        invariant job.None? ==> forall j :: j in jobs && j !in todo ==> !Due(j, at)
        invariant job.Some? ==> Due(job.value, at)
        invariant job.Some? ==>
          forall j :: j in jobs && j !in todo && Due(j, at) ==> jobs[job.value].nextAttemptAt <= jobs[j].nextAttemptAt
        decreases todo
      {
        var j :| j in todo;
        todo := todo - {j};
        if Due(j, at) && (job.None? || jobs[j].nextAttemptAt < jobs[job.value].nextAttemptAt) {
          job := Some(j);
        }
      }
    }

    /** provisionWorkerTick: up to `limit` turns, each on a due job whose next attempt is earliest; it stops early only
        when nothing is due. */
    method ProvisionWorkerTick(limit: nat) returns (ghost turns: seq<JobTurn>, ghost at: int)
      requires Valid()
      modifies this
      ensures Valid() && Leads(old(Tables()), Tables())
      ensures Shift(turns, old(Tables()), Tables()) && |turns| <= limit
      ensures forall t :: t in turns ==> Answered(t) && FirstDue(t)
      ensures |turns| < limit ==> now <= at && NothingDue(Tables(), at)
    {
      LeadsNowhere(Tables());
      turns, at := [], now;
      for count := 0 to limit
        invariant Valid() && Leads(old(Tables()), Tables()) && Shift(turns, old(Tables()), Tables()) && |turns| == count
        invariant forall t :: t in turns ==> Answered(t) && FirstDue(t)
      {
        ghost var before := Tables();
        var done, turn, reading := WorkOnce();
        at := reading;
        if done {
          return;
        }
        LeadsTogether(old(Tables()), before, Tables());
        ShiftGrows(turns, old(Tables()), turn.value);
        turns := turns + [turn.value];
      }
    }

    /** One turn of the worker loop; `done` when nothing is due. */
    method WorkOnce() returns (done: bool, ghost turn: Option<JobTurn>, ghost at: int)
      requires Valid()
      modifies this
      ensures Valid() && Leads(old(Tables()), Tables())
      ensures old(now) <= at && (done <==> NothingDue(old(Tables()), at)) && (done <==> turn.None?)
      ensures done ==> Tables() == old(Tables())
      ensures !done ==>
        && turn.value.Sound() && turn.value.before == old(Tables()) && turn.value.after == Tables()
        && Answered(turn.value) && FirstDue(turn.value)
    {
      ghost var before := Tables();
      LeadsNowhere(before);
      var reading := ReadClock(now);
      at := reading;
      var job := FirstDueJob(reading);
      assert forall j :: DueAt(before, j, at) <==> Due(j, at);
      if job.None? {
        return true, None, at;
      }
      forall later | at <= later ensures Claimable(before, job.value, later) { DueIsClaimable(before, job.value, at, later); }
      var result;
      result, turn := ProcessJob(job.value, reading);
      done := false;
    }

    /** acknowledgeProvisionResult */
    method AcknowledgeProvisionResult(id: JobId, user: UserId) returns (acknowledged: bool)
      requires Valid()
      modifies this
      ensures Tables() == Acknowledge(old(Tables()), id, user) && Valid() && Leads(old(Tables()), Tables())
      ensures acknowledged <==> id in old(jobs) && id in jobs && old(jobs)[id].user == Some(user)
                                && old(jobs)[id].status == Completed && old(jobs)[id].result.Some?
    {
      LeadsNowhere(Tables());
      LeadsOn(Tables(), Tables(), Ack(id, user));
      acknowledged := id in jobs && jobs[id].user == Some(user) && jobs[id].status == Completed && jobs[id].result.Some?;
      if acknowledged {
        jobs := jobs[id := jobs[id].(result := None)];
      }
      StaysReachable(old(Tables()), Tables());
    }
  }
}
