/** ntfy provisioning as a state machine over accounts, device tokens and leased jobs
    (apps/server/src/notification-provisioning.ts, the ntfy handlers of
    apps/server/src/routes/notifications.ts and the user handlers of apps/server/src/routes/users.ts). */
module Provisioning {
  import opened Wrappers

  type UserId = nat
  type JobId = nat
  type DeviceId = nat
  type Username = nat
  type Token = string

  const LEASE_MS: int := 60_000
  const CLEANUP_RETRY_SECONDS: int := 21600

  // ---------------------------------------------------------------------------
  // Tables

  datatype AccountStatus = Pending | Active | Disabled | Error

  datatype Account = Account(username: Username, status: AccountStatus, generation: nat)

  datatype Operation = Provision | AddDevice | RevokeDevice | DisableAccount

  datatype JobStatus = Queued | Processing | Completed | Failed

  datatype Payload = Payload(username: Username, generation: Option<nat>, token: Option<Token>)
  {
    /** payload.accountGeneration ?? 0 */
    function Generation(): nat {
      match generation case Some(g) => g case None => 0
    }
  }

  datatype Job = Job(
    user: Option<UserId>,
    op: Operation,
    payload: Payload,
    status: JobStatus,
    attempts: nat,
    nextAttemptAt: int,
    leaseUntil: Option<int>,
    result: Option<Token>)

  /** `generation` is history: the account generation the token was issued for. */
  datatype Device = Device(user: UserId, token: Token, revoked: bool, generation: nat)

  /** A worker inside processJob, waiting for the provisioner. */
  datatype Call = Call(job: JobId, lease: int, attempts: nat, user: Option<UserId>, op: Operation, payload: Payload)

  /** `calls` and `stale` are workers waiting for a first and for a clean-up answer; `cleanups` are the
      jobs an enable request is waiting for, and `ready` those whose request may go on. */
  datatype State = State(
    now: int,
    accounts: map<UserId, Account>,
    devices: map<DeviceId, Device>,
    jobs: map<JobId, Job>,
    calls: set<Call>,
    stale: set<(Call, Option<Token>)>,
    cleanups: map<JobId, UserId>,
    ready: set<JobId>)

  function Hint(token: Token): string {
    if |token| <= 8 then token else token[|token| - 8..]
  }

  predicate IsCleanup(op: Operation) {
    op == DisableAccount || op == RevokeDevice
  }

  predicate ReturnsCredentials(op: Operation) {
    op == Provision || op == AddDevice
  }

  predicate Enabled?(s: State, user: UserId) {
    user in s.accounts && s.accounts[user].status != Disabled
  }

  // ---------------------------------------------------------------------------
  // Request handlers

  function NewJob(user: Option<UserId>, op: Operation, payload: Payload, now: int): Job {
    Job(user, op, payload, Queued, 0, now, None, None)
  }

  /** queueProvisionJob */
  function Queue(s: State, id: JobId, user: Option<UserId>, op: Operation, payload: Payload, now: int): State {
    s.(now := now, jobs := s.jobs[id := NewJob(user, op, payload, now)])
  }

  function RevokeAll(devices: map<DeviceId, Device>, user: UserId): map<DeviceId, Device> {
    map d | d in devices :: if devices[d].user == user then devices[d].(revoked := true) else devices[d]
  }

  /** The upsert of the enable handler: a new username, status pending, the next generation. */
  function Upsert(s: State, user: UserId, username: Username): State {
    var generation := if user in s.accounts then s.accounts[user].generation + 1 else 0;
    s.(accounts := s.accounts[user := Account(username, Pending, generation)])
  }

  /** Account disabled, generation bumped, tokens revoked: common to the three handlers below. */
  function Bump(s: State, user: UserId): State
    requires user in s.accounts
  {
    var account := s.accounts[user];
    s.(accounts := s.accounts[user := account.(status := Disabled, generation := account.generation + 1)],
       devices := RevokeAll(s.devices, user))
  }

  function QueueDisable(s: State, id: JobId, user: UserId, now: int): State
    requires user in s.accounts
  {
    var account := s.accounts[user];
    Queue(s, id, Some(user), DisableAccount, Payload(account.username, Some(account.generation), None), now)
  }

  /** DELETE /api/notifications/ntfy also fails the user's open provisioning jobs. */
  function FailOpenJobs(jobs: map<JobId, Job>, user: UserId): map<JobId, Job> {
    map j | j in jobs ::
      if jobs[j].user == Some(user) && ReturnsCredentials(jobs[j].op) && (jobs[j].status == Queued || jobs[j].status == Processing)
      then jobs[j].(status := Failed, leaseUntil := None) else jobs[j]
  }

  function Disable(s: State, user: UserId, id: JobId, now: int): State
    requires user in s.accounts
  {
    var s1 := Bump(s, user);
    QueueDisable(s1.(jobs := FailOpenJobs(s1.jobs, user)), id, user, now)
  }

  /** PATCH /api/users/:id with disabled, on an account that is not disabled yet. */
  function DisableUser(s: State, user: UserId, id: JobId, now: int): State
    requires user in s.accounts
  {
    QueueDisable(Bump(s, user), id, user, now)
  }

  /** DELETE /api/users/:id bumps the account whatever its status, and queues clean-up if it was enabled. */
  function DeleteUser(s: State, user: UserId, id: JobId, now: int): State {
    if user !in s.accounts then s.(now := now)
    else if s.accounts[user].status == Disabled then Bump(s, user).(now := now)
    else QueueDisable(Bump(s, user), id, user, now)
  }

  // ---------------------------------------------------------------------------
  // resumeProvisionJob and processJob

  predicate Matches(s: State, user: UserId, username: Username, generation: nat) {
    user in s.accounts && s.accounts[user].username == username && s.accounts[user].generation == generation
  }

  predicate Resumable(s: State, id: JobId, user: UserId) {
    && id in s.jobs && s.jobs[id].user == Some(user) && (s.jobs[id].status == Queued || s.jobs[id].status == Failed)
    && (s.jobs[id].op == Provision ==>
          && s.jobs[id].payload.generation.Some?
          && Matches(s, user, s.jobs[id].payload.username, s.jobs[id].payload.generation.value)
          && (s.accounts[user].status == Pending || s.accounts[user].status == Error))
  }

  function Resume(s: State, id: JobId, user: UserId, now: int): State
    requires Resumable(s, id, user)
  {
    s.(now := now,
       accounts := if s.jobs[id].op == Provision then s.accounts[user := s.accounts[user].(status := Pending)] else s.accounts,
       jobs := s.jobs[id := s.jobs[id].(status := Queued, attempts := 0, nextAttemptAt := now, leaseUntil := None)])
  }

  predicate Claimable(s: State, id: JobId, now: int) {
    && id in s.jobs
    && (s.jobs[id].status == Queued
        || (s.jobs[id].status == Processing && s.jobs[id].leaseUntil.Some? && s.jobs[id].leaseUntil.value < now))
  }

  function CallOf(s: State, id: JobId, later: int): Call
    requires id in s.jobs
  {
    var job := s.jobs[id];
    Call(id, later + LEASE_MS, job.attempts + 1, job.user, job.op, job.payload)
  }

  function Claim(s: State, id: JobId, later: int): State
    requires id in s.jobs
  {
    var call, job := CallOf(s, id, later), s.jobs[id];
    s.(now := later,
       jobs := s.jobs[id := job.(status := Processing, attempts := call.attempts, leaseUntil := Some(call.lease))],
       calls := s.calls + {call})
  }

  predicate Holds(s: State, call: Call) {
    call.job in s.jobs && s.jobs[call.job].status == Processing && s.jobs[call.job].leaseUntil == Some(call.lease)
  }

  /** The account is not (any more) the one this credential job was made for. */
  predicate Outdated(s: State, call: Call) {
    && ReturnsCredentials(call.op) && call.user.Some?
    && !(Matches(s, call.user.value, call.payload.username, call.payload.Generation())
         && s.accounts[call.user.value].status == (if call.op == Provision then Pending else Active))
  }

  predicate KnownDevice(s: State, user: UserId, token: Token) {
    exists d :: d in s.devices && s.devices[d].user == user && !s.devices[d].revoked && Hint(s.devices[d].token) == Hint(token)
  }

  /** finalizeProvisioning. `device` is a fresh id; `found` the device a revocation matches. None is the
      thrown error. */
  function Finalize(s: State, call: Call, token: Option<Token>, device: DeviceId, found: Option<DeviceId>): Option<State> {
    if call.user.None? then Some(s)
    else
      var user := call.user.value;
      match call.op
      case DisableAccount =>
        if Matches(s, user, call.payload.username, call.payload.Generation()) then
          Some(s.(accounts := s.accounts[user := s.accounts[user].(status := Disabled)], devices := RevokeAll(s.devices, user)))
        else Some(s)
      case RevokeDevice =>
        if found.Some? && found.value in s.devices
        then Some(s.(devices := s.devices[found.value := s.devices[found.value].(revoked := true)]))
        else Some(s)
      case AddDevice =>
        if token.None? || Outdated(s, call) then None else Some(RecordDevice(s, user, token.value, device, call))
      case Provision =>
        if token.None? || Outdated(s, call) then None
        else Some(RecordDevice(s, user, token.value, device, call)
                    .(accounts := s.accounts[user := s.accounts[user].(status := Active)]))
  }

  function RecordDevice(s: State, user: UserId, token: Token, device: DeviceId, call: Call): State {
    if KnownDevice(s, user, token) then s
    else s.(devices := s.devices[device := Device(user, token, false, call.payload.Generation())])
  }

  /** What revocation looks for among the user's tokens. */
  ghost predicate FindsDevice(s: State, call: Call, found: Option<DeviceId>) {
    if call.op == RevokeDevice && call.user.Some? && call.payload.token.Some? then
      var user, token := call.user.value, call.payload.token.value;
      match found
      case Some(d) => d in s.devices && s.devices[d].user == user && !s.devices[d].revoked && s.devices[d].token == token
      case None => forall d :: d in s.devices && s.devices[d].user == user && !s.devices[d].revoked ==> s.devices[d].token != token
    else found == None
  }

  function RetryDelay(call: Call): Option<int> {
    if call.attempts == 1 then Some(60)
    else if call.attempts == 2 then Some(300)
    else if call.attempts == 3 then Some(900)
    else if call.attempts == 4 then Some(3600)
    else if call.attempts == 5 then Some(21600)
    else if IsCleanup(call.op) then Some(CLEANUP_RETRY_SECONDS)
    else None
  }

  /** The catch block of processJob. */
  function FailJob(s: State, call: Call, outdated: bool, later: int): State {
    if !Holds(s, call) then s
    else
      var job, delay := s.jobs[call.job], if outdated then None else RetryDelay(call);
      var s1 := s.(jobs := s.jobs[call.job := job.(
        status := if delay.None? then Failed else Queued,
        nextAttemptAt := if delay.None? then later else later + delay.value * 1000,
        leaseUntil := None)]);
      if delay.None? && !outdated && call.op == Provision && call.user.Some?
         && Matches(s, call.user.value, call.payload.username, call.payload.Generation())
         && s.accounts[call.user.value].status == Pending
      then s1.(accounts := s1.accounts[call.user.value := s1.accounts[call.user.value].(status := Error)])
      else s1
  }

  function CompleteJob(s: State, call: Call, token: Option<Token>): State
    requires call.job in s.jobs
  {
    s.(jobs := s.jobs[call.job := s.jobs[call.job].(
         status := Completed, leaseUntil := None, result := if ReturnsCredentials(call.op) then token else None)],
       ready := if call.job in s.cleanups then s.ready + {call.job} else s.ready)
  }

  /** processJob after the provisioner's answer: None for an error, otherwise the token it returned, if any. */
  function Reply(s: State, call: Call, answer: Option<Option<Token>>, device: DeviceId, found: Option<DeviceId>, later: int): State {
    var s1 := s.(now := later, calls := s.calls - {call});
    if answer.None? || !Holds(s, call) then FailJob(s1, call, false, later)
    else if Outdated(s1, call) then s1.(stale := s1.stale + {(call, answer.value)})
    else
      match Finalize(s1, call, answer.value, device, found)
      case None => FailJob(s1, call, false, later)
      case Some(s2) => CompleteJob(s2, call, answer.value)
  }

  /** The job that retries a failed clean-up, if one is needed. */
  function AfterCleanup(s: State, call: Call, token: Option<Token>, cleaned: bool, id: JobId, later: int): State {
    if cleaned then s
    else if call.op == Provision then Queue(s, id, None, DisableAccount, Payload(call.payload.username, None, None), later)
    else if token.Some? then Queue(s, id, None, RevokeDevice, Payload(call.payload.username, None, token), later)
    else s
  }

  /** After the clean-up request for an outdated answer; if that failed, an ownerless job will retry it. */
  function StaleDone(s: State, call: Call, token: Option<Token>, cleaned: bool, id: JobId, later: int): State {
    FailJob(AfterCleanup(s.(now := later, stale := s.stale - {(call, token)}), call, token, cleaned, id, later), call, true, later)
  }

  /** acknowledgeProvisionResult */
  function Acknowledge(s: State, id: JobId, user: UserId): State {
    if id in s.jobs && s.jobs[id].user == Some(user) && s.jobs[id].status == Completed && s.jobs[id].result.Some?
    then s.(jobs := s.jobs[id := s.jobs[id].(result := None)]) else s
  }

  // ---------------------------------------------------------------------------
  // Runs

  datatype Action =
    | EnableAccount(user: UserId, username: Username, after: Option<JobId>)
    | EnableCleanup(user: UserId, id: JobId, now: int)
    | QueueProvision(user: UserId, id: JobId, now: int)
    | QueueDevice(user: UserId, id: JobId, now: int)
    | QueueRevoke(user: UserId, device: DeviceId, id: JobId, now: int)
    | DisableNtfy(user: UserId, id: JobId, now: int)
    | PatchUser(user: UserId, id: JobId, now: int)
    | RemoveUser(user: UserId, id: JobId, now: int)
    | ResumeJob(id: JobId, user: UserId, now: int)
    | ClaimJob(id: JobId, now: int, later: int)
    | Answer(call: Call, answer: Option<Option<Token>>, device: DeviceId, found: Option<DeviceId>, later: int)
    | CleanUpDone(call: Call, token: Option<Token>, cleaned: bool, id: JobId, later: int)
    | Ack(id: JobId, user: UserId)

  /** An enable request upserts at once when there is no account or it is disabled, and after an awaited
      clean-up job otherwise - without looking at the account again. */
  ghost predicate Possible(s: State, a: Action) {
    match a
    case EnableAccount(user, username, after) =>
      && (forall u :: u in s.accounts ==> s.accounts[u].username != username)
      && (match after
          case None => user in s.accounts ==> s.accounts[user].status == Disabled
          case Some(j) => j in s.ready && j in s.cleanups && s.cleanups[j] == user)
    case EnableCleanup(user, id, now) =>
      id !in s.jobs && s.now <= now && user in s.accounts && (s.accounts[user].status == Pending || s.accounts[user].status == Error)
    case QueueProvision(user, id, now) => id !in s.jobs && s.now <= now && user in s.accounts
    case QueueDevice(user, id, now) => id !in s.jobs && s.now <= now && user in s.accounts && s.accounts[user].status == Active
    case QueueRevoke(user, device, id, now) =>
      && id !in s.jobs && s.now <= now && user in s.accounts
      && device in s.devices && s.devices[device].user == user && !s.devices[device].revoked
    case DisableNtfy(user, id, now) => id !in s.jobs && s.now <= now && Enabled?(s, user)
    case PatchUser(user, id, now) => id !in s.jobs && s.now <= now && Enabled?(s, user)
    case RemoveUser(_, id, now) => id !in s.jobs && s.now <= now
    case ResumeJob(id, user, now) => s.now <= now && Resumable(s, id, user)
    case ClaimJob(id, now, later) => s.now <= now <= later && Claimable(s, id, now)
    case Answer(call, _, device, found, later) => call in s.calls && device !in s.devices && FindsDevice(s, call, found) && s.now <= later
    case CleanUpDone(call, token, _, id, later) => (call, token) in s.stale && id !in s.jobs && s.now <= later
    case Ack(_, _) => true
  }

  ghost function Apply(s: State, a: Action): State
    requires Possible(s, a)
  {
    match a
    case EnableAccount(user, username, after) =>
      var s1 := Upsert(s, user, username);
      if after.Some? then s1.(ready := s1.ready - {after.value}) else s1
    case EnableCleanup(user, id, now) =>
      var account := s.accounts[user];
      Queue(s, id, Some(user), DisableAccount, Payload(account.username, Some(account.generation), None), now)
        .(cleanups := s.cleanups[id := user])
    case QueueProvision(user, id, now) =>
      Queue(s, id, Some(user), Provision, Payload(s.accounts[user].username, Some(s.accounts[user].generation), None), now)
    case QueueDevice(user, id, now) =>
      Queue(s, id, Some(user), AddDevice, Payload(s.accounts[user].username, Some(s.accounts[user].generation), None), now)
    case QueueRevoke(user, device, id, now) =>
      Queue(s, id, Some(user), RevokeDevice, Payload(s.accounts[user].username, None, Some(s.devices[device].token)), now)
    case DisableNtfy(user, id, now) => Disable(s, user, id, now)
    case PatchUser(user, id, now) => DisableUser(s, user, id, now)
    case RemoveUser(user, id, now) => DeleteUser(s, user, id, now)
    case ResumeJob(id, user, now) => Resume(s, id, user, now)
    case ClaimJob(id, now, later) => Claim(s, id, later)
    case Answer(call, answer, device, found, later) => Reply(s, call, answer, device, found, later)
    case CleanUpDone(call, token, cleaned, id, later) => StaleDone(s, call, token, cleaned, id, later)
    case Ack(id, user) => Acknowledge(s, id, user)
  }

  ghost predicate Initial(s: State) {
    && s.accounts == map[] && s.devices == map[] && s.jobs == map[] && s.calls == {} && s.stale == {}
    && s.cleanups == map[] && s.ready == {}
  }

  /** A run: the actions taken, and the states before, between and after them. */
  datatype Run = Run(states: seq<State>, actions: seq<Action>)
  {
    ghost predicate StepOk(i: nat)
      requires i < |actions| && |states| == |actions| + 1
    {
      Possible(states[i], actions[i]) && states[i + 1] == Apply(states[i], actions[i])
    }

    ghost predicate Valid() {
      && |states| == |actions| + 1 && Initial(states[0])
      && forall i {:trigger StepOk(i)} :: 0 <= i < |actions| ==> StepOk(i)
    }
  }
}
