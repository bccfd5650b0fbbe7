/** The notification outbox as a state machine over its tables
    (apps/server/src/notification-service.ts). Every action below is one stretch of
    code that runs between two awaits. */
module Outbox {
  import opened Wrappers
  import opened Incidents
  import opened QuietHours

  // Identifiers are only ever compared.
  type UserId = nat
  type ProjectId = nat
  type TypeId = nat
  type SubId = nat
  type DedupeKey = nat

  const LEASE_MS: int := 60_000

  // ---------------------------------------------------------------------------
  // Tables

  datatype Channel = InApp | Email | Ntfy
  datatype CooldownMode = Once | Interval | RepeatCount | UntilRecovery
  datatype RecoveryMode = Merged | RecoveryOnly | All

  type CooldownSeconds = n: int | 60 <= n <= 2_592_000 witness 60
  type Repeats = n: int | 1 <= n <= 100 witness 1

  /** `offset` is the user's time zone. */
  datatype User = User(admin: bool, disabled: bool, deleted: bool, offset: int)

  datatype EventType = EventType(project: ProjectId, lifecycle: Lifecycle, defaultPriority: int, enabled: bool)

  datatype Subscription = Subscription(
    user: UserId,
    project: Option<ProjectId>,
    eventType: Option<TypeId>,
    minPriority: int,
    deliveryPriority: Option<int>,
    channels: seq<string>,
    cooldown: CooldownMode,
    cooldownSeconds: CooldownSeconds,
    repeatCount: Repeats,
    quietStart: Option<ClockMinute>,
    quietEnd: Option<ClockMinute>,
    recovery: RecoveryMode,
    enabled: bool)

  /** The tables that administrators edit; `projects` maps a project to whether it is enabled. */
  datatype Directory = Directory(
    users: map<UserId, User>,
    projects: map<ProjectId, bool>,
    types: map<TypeId, EventType>,
    members: set<(ProjectId, UserId)>,
    subs: map<SubId, Subscription>)

  datatype Event = Event(
    project: ProjectId,
    eventType: TypeId,
    lifecycle: Lifecycle,
    key: Option<DedupeKey>,
    occurredAt: int,
    createdAt: int,
    priority: int,
    title: string,
    body: string,
    data: string,
    idempotencyKey: Option<string>,
    fingerprint: Option<string>)

  datatype IncidentKey = IncidentKey(project: ProjectId, key: DedupeKey)

  datatype Status = Pending | Processing | Delivered | Failed | Suppressed | Superseded

  /** UNIQUE (event_id, subscription_id, channel, repeat_index) identifies a delivery. */
  datatype RowKey = RowKey(event: EventId, sub: SubId, channel: Channel, index: nat)

  datatype Row = Row(
    user: UserId,
    status: Status,
    attempts: nat,
    nextAttemptAt: int,
    leaseUntil: Option<int>,
    deliveredAt: Option<int>,
    createdAt: int)

  /** What a worker remembers of the row it claimed, joined with event, user and subscription. */
  datatype Claim = Claim(
    row: RowKey,
    lease: int,
    attempts: nat,
    event: Event,
    sub: Subscription,
    priority: int,
    offset: int)

  /** The tables, the claims that workers are still holding, and three history records: every claim
      ever issued, the number of outages of each incident, and the outage each opening was accepted in. */
  datatype State = State(
    now: int,
    dir: Directory,
    events: map<EventId, Event>,
    incidents: map<IncidentKey, Incident>,
    rows: map<RowKey, Row>,
    held: set<Claim>,
    issued: seq<Claim>,
    outages: map<IncidentKey, nat>,
    outage: map<EventId, nat>)

  // ---------------------------------------------------------------------------
  // Channels (normalizeChannels)

  function ParseChannel(name: string): Option<Channel> {
    if name == "in_app" then Some(InApp)
    else if name == "email" then Some(Email)
    else if name == "ntfy" then Some(Ntfy)
    else None
  }

  /** The known channels of a stored list, each once, in order of first occurrence. */
  function NormalizeChannels(names: seq<string>): (channels: seq<Channel>)
    ensures forall i, j :: 0 <= i < j < |channels| ==> channels[i] != channels[j]
    ensures forall c :: c in channels <==> exists n :: n in names && ParseChannel(n) == Some(c)
  {
    if names == [] then []
    else
      var rest, last := names[..|names| - 1], names[|names| - 1];
      assert names == rest + [last];
      var channels := NormalizeChannels(rest);
      match ParseChannel(last)
      case None => channels
      case Some(c) => if c in channels then channels else channels + [c]
  }

  // ---------------------------------------------------------------------------
  // Who may receive what

  predicate UserActive(dir: Directory, user: UserId) {
    user in dir.users && !dir.users[user].disabled && !dir.users[user].deleted
  }

  predicate ProjectEnabled(dir: Directory, project: ProjectId) {
    project in dir.projects && dir.projects[project]
  }

  predicate MayRead(dir: Directory, project: ProjectId, user: UserId) {
    user in dir.users && (dir.users[user].admin || (project, user) in dir.members)
  }

  predicate Matches(dir: Directory, sub: Subscription, event: Event, target: Option<UserId>) {
    && sub.enabled && UserActive(dir, sub.user)
    && (sub.project.None? || sub.project.value == event.project)
    && (sub.eventType.None? || sub.eventType.value == event.eventType)
    && sub.minPriority <= event.priority
    && (target.None? || sub.user == target.value)
    && MayRead(dir, event.project, sub.user)
  }

  /** The (subscription, channel) pairs an accepted event fans out to. */
  function FanOut(dir: Directory, id: EventId, event: Event, target: Option<UserId>): set<RowKey> {
    set sub, channel | sub in dir.subs && channel in NormalizeChannels(dir.subs[sub].channels)
                       && Matches(dir, dir.subs[sub], event, target)
      :: RowKey(id, sub, channel, 0)
  }

  // ---------------------------------------------------------------------------
  // Incidents

  function IncidentOf(event: Event): IncidentKey
    requires event.key.Some?
  {
    IncidentKey(event.project, event.key.value)
  }

  function Lookup(incidents: map<IncidentKey, Incident>, k: IncidentKey): Option<Incident> {
    if k in incidents then Some(incidents[k]) else None
  }

  predicate IsOpen(incidents: map<IncidentKey, Incident>, k: IncidentKey) {
    k in incidents && incidents[k].status == Open
  }

  /** The timestamp test of the claim, sweep, completion and failure code. */
  predicate OpenSince(incidents: map<IncidentKey, Incident>, event: Event) {
    && event.key.Some?
    && IsOpen(incidents, IncidentOf(event))
    && incidents[IncidentOf(event)].openedAt <= event.occurredAt
  }

  // ---------------------------------------------------------------------------
  // Emission

  predicate Counts(status: Status) {
    status == Pending || status == Processing || status == Delivered || status == Failed
  }

  predicate IncidentScoped(mode: CooldownMode) {
    mode == Once || mode == RepeatCount || mode == UntilRecovery
  }

  function Cutoff(incidents: map<IncidentKey, Incident>, sub: Subscription, k: IncidentKey, now: int): int {
    if IncidentScoped(sub.cooldown) && IsOpen(incidents, k) then incidents[k].openedAt
    else now - sub.cooldownSeconds * 1000
  }

  /** Row r is a recent enough delivery for the same subscription, channel and dedupe key. */
  predicate IsRecent(events: map<EventId, Event>, rows: map<RowKey, Row>, r: RowKey, id: SubId, channel: Channel,
                     k: IncidentKey, mode: CooldownMode, cutoff: int)
    requires r in rows
  {
    && r.sub == id && r.channel == channel && Counts(rows[r].status)
    && r.event in events
    && events[r.event].project == k.project && events[r.event].key == Some(k.key)
    && cutoff <=
       (if IncidentScoped(mode) then events[r.event].occurredAt
        else match rows[r].deliveredAt case Some(at) => at case None => rows[r].createdAt)
  }

  function InitialStatus(incidents: map<IncidentKey, Incident>, events: map<EventId, Event>, rows: map<RowKey, Row>,
                         id: SubId, sub: Subscription, channel: Channel, event: Event, now: int): Status
  {
    if event.lifecycle == Recovered || event.key.None? then Pending
    else
      var k := IncidentOf(event);
      var cutoff := Cutoff(incidents, sub, k, now);
      if exists r :: r in rows && IsRecent(events, rows, r, id, channel, k, sub.cooldown, cutoff) then Suppressed
      else Pending
  }

  function EffectivePriority(sub: Subscription, event: Event): int {
    match sub.deliveryPriority case Some(p) => p case None => event.priority
  }

  /** Below priority 5 an instant in the quiet period moves to the end of it. */
  function Deferred(t: int, priority: int, offset: int, start: Option<ClockMinute>, end: Option<ClockMinute>): int {
    if priority < 5 && IsQuietTime(t, offset, start, end) then QuietEnd(t, offset, start.value, end.value) else t
  }

  function NewRow(incidents: map<IncidentKey, Incident>, events: map<EventId, Event>, rows: map<RowKey, Row>,
                  dir: Directory, id: SubId, channel: Channel, event: Event, now: int): Row
    requires id in dir.subs && dir.subs[id].user in dir.users
  {
    var sub := dir.subs[id];
    var status := InitialStatus(incidents, events, rows, id, sub, channel, event, now);
    Row(sub.user,
        if event.lifecycle == Opened && sub.recovery == RecoveryOnly then Suppressed else status,
        0,
        Deferred(now, EffectivePriority(sub, event), dir.users[sub.user].offset, sub.quietStart, sub.quietEnd),
        None, None, now)
  }

  /** A pending opening that a recovery for the same subscription and channel replaces (merged mode). */
  predicate MergedAway(events: map<EventId, Event>, rows: map<RowKey, Row>, dir: Directory, r: RowKey,
                       event: Event, target: Option<UserId>)
    requires r in rows
  {
    && event.lifecycle == Recovered && event.key.Some?
    && r.sub in dir.subs && Matches(dir, dir.subs[r.sub], event, target)
    && dir.subs[r.sub].recovery == Merged
    && r.channel in NormalizeChannels(dir.subs[r.sub].channels)
    && rows[r].status == Pending && rows[r].user == dir.subs[r.sub].user
    && r.event in events && events[r.event].lifecycle == Opened
    && events[r.event].project == event.project && events[r.event].key == event.key
  }

  function Drop(row: Row): Row {
    row.(status := Superseded, leaseUntil := None)
  }

  /** The delivery table after the fan-out of an accepted event; `events` already holds the event. */
  function EmitRows(incidents: map<IncidentKey, Incident>, events: map<EventId, Event>, rows: map<RowKey, Row>,
                    dir: Directory, id: EventId, event: Event, target: Option<UserId>, now: int): map<RowKey, Row>
  {
    map r | r in rows.Keys + FanOut(dir, id, event, target) ::
      if r in FanOut(dir, id, event, target) then NewRow(incidents, events, rows, dir, r.sub, r.channel, event, now)
      else if MergedAway(events, rows, dir, r, event, target) then Drop(rows[r])
      else rows[r]
  }

  function CountOutages(outages: map<IncidentKey, nat>, k: IncidentKey): nat {
    if k in outages then outages[k] else 0
  }

  /** updateIncident on the incident table: the new table, and whether deliveries are created. */
  function UpdateIncident(incidents: map<IncidentKey, Incident>, id: EventId, event: Event): (map<IncidentKey, Incident>, bool) {
    if event.key.None? || event.lifecycle == Plain then (incidents, true)
    else
      var k := IncidentOf(event);
      var after := Absorb(Lookup(incidents, k), event.lifecycle, id, event.occurredAt);
      (if after.row.Some? then incidents[k := after.row.value] else incidents, after.changed)
  }

  /** History: the outage an accepted opening belongs to, counted per incident. */
  function OutageNumber(incidents: map<IncidentKey, Incident>, outages: map<IncidentKey, nat>, k: IncidentKey): nat {
    if IsOpen(incidents, k) then CountOutages(outages, k) else CountOutages(outages, k) + 1
  }

  /** emitNotification past validation and the idempotency check. */
  function Emit(s: State, id: EventId, event: Event, target: Option<UserId>, now: int): State {
    var events := s.events[id := event];
    var (incidents, accepted) := UpdateIncident(s.incidents, id, event);
    var opening := accepted && event.lifecycle == Opened && event.key.Some?;
    s.(now := now, events := events, incidents := incidents,
       rows := if accepted then EmitRows(incidents, events, s.rows, s.dir, id, event, target, now) else s.rows,
       outages := if opening then s.outages[IncidentOf(event) := OutageNumber(s.incidents, s.outages, IncidentOf(event))]
                  else s.outages,
       outage := if opening then s.outage[id := OutageNumber(s.incidents, s.outages, IncidentOf(event))] else s.outage)
  }

  // ---------------------------------------------------------------------------
  // Sweeps

  predicate Idle(row: Row, now: int) {
    row.status == Pending || (row.status == Processing && row.leaseUntil.Some? && row.leaseUntil.value < now)
  }

  predicate ResolvedOpening(s: State, r: RowKey) {
    && r.event in s.events && s.events[r.event].lifecycle == Opened
    && r.sub in s.dir.subs && s.dir.subs[r.sub].recovery != All
    && !OpenSince(s.incidents, s.events[r.event])
  }

  predicate Unauthorized(s: State, r: RowKey)
    requires r in s.rows
  {
    var user := s.rows[r].user;
    || !UserActive(s.dir, user)
    || !(r.event in s.events && ProjectEnabled(s.dir, s.events[r.event].project))
    || !(r.sub in s.dir.subs && s.dir.subs[r.sub].enabled)
    || (r.event in s.events && user in s.dir.users && !MayRead(s.dir, s.events[r.event].project, user))
  }

  function SweepResolved(s: State, now: int): State {
    s.(now := now,
       rows := map r | r in s.rows ::
         if Idle(s.rows[r], now) && ResolvedOpening(s, r) then Drop(s.rows[r]) else s.rows[r])
  }

  function SweepUnauthorized(s: State, now: int): State {
    s.(now := now,
       rows := map r | r in s.rows ::
         if Idle(s.rows[r], now) && Unauthorized(s, r) then Drop(s.rows[r]) else s.rows[r])
  }

  // ---------------------------------------------------------------------------
  // Claims

  predicate Claimable(s: State, r: RowKey, now: int)
    requires r in s.rows
  {
    var row := s.rows[r];
    && r.event in s.events && r.sub in s.dir.subs
    && ProjectEnabled(s.dir, s.events[r.event].project)
    && UserActive(s.dir, row.user)
    && s.dir.subs[r.sub].enabled
    && (row.status == Pending || row.status == Processing)
    && row.nextAttemptAt <= now
    && MayRead(s.dir, s.events[r.event].project, row.user)
    && (s.events[r.event].lifecycle != Opened || s.dir.subs[r.sub].recovery == All
        || OpenSince(s.incidents, s.events[r.event]))
    && (row.leaseUntil.None? || row.leaseUntil.value < now)
  }

  predicate Before(a: Row, b: Row) {
    a.nextAttemptAt < b.nextAttemptAt || (a.nextAttemptAt == b.nextAttemptAt && a.createdAt <= b.createdAt)
  }

  /** ORDER BY next_attempt_at, created_at LIMIT 1 */
  ghost predicate FirstClaimable(s: State, r: RowKey, now: int) {
    && r in s.rows && Claimable(s, r, now)
    && forall q :: q in s.rows && Claimable(s, q, now) ==> Before(s.rows[r], s.rows[q])
  }

  function ClaimOf(s: State, r: RowKey, later: int): Claim
    requires r in s.rows && r.event in s.events && r.sub in s.dir.subs && s.rows[r].user in s.dir.users
  {
    var event, sub := s.events[r.event], s.dir.subs[r.sub];
    Claim(r, later + LEASE_MS, s.rows[r].attempts + 1, event, sub,
          EffectivePriority(sub, event), s.dir.users[s.rows[r].user].offset)
  }

  /** claimDelivery reads the clock once to choose (`now`) and once for the lease (`later`). */
  function TakeClaim(s: State, r: RowKey, now: int, later: int): State
    requires r in s.rows && Claimable(s, r, now)
  {
    var claim := ClaimOf(s, r, later);
    s.(now := later,
       rows := s.rows[r := s.rows[r].(status := Processing, attempts := claim.attempts, leaseUntil := Some(claim.lease))],
       held := s.held + {claim},
       issued := s.issued + [claim])
  }

  // ---------------------------------------------------------------------------
  // Completion, failure and repeats

  /** WHERE id=? AND status='processing' AND lease_until=? */
  predicate Holds(rows: map<RowKey, Row>, claim: Claim) {
    claim.row in rows && rows[claim.row].status == Processing && rows[claim.row].leaseUntil == Some(claim.lease)
  }

  /** The claimed opening's outage is over. */
  predicate OutageOver(incidents: map<IncidentKey, Incident>, claim: Claim) {
    claim.event.lifecycle == Opened && claim.event.key.Some? && !OpenSince(incidents, claim.event)
  }

  function Abandon(rows: map<RowKey, Row>, claim: Claim): map<RowKey, Row> {
    if Holds(rows, claim) then rows[claim.row := Drop(rows[claim.row])] else rows
  }

  function GiveUp(rows: map<RowKey, Row>, claim: Claim): map<RowKey, Row> {
    if Holds(rows, claim) then rows[claim.row := rows[claim.row].(status := Failed, leaseUntil := None)] else rows
  }

  function NextInChain(r: RowKey): RowKey {
    r.(index := r.index + 1)
  }

  predicate Repeating(incidents: map<IncidentKey, Incident>, claim: Claim) {
    && claim.row.channel != InApp && claim.event.lifecycle == Opened && claim.event.key.Some?
    && ((claim.sub.cooldown == RepeatCount && claim.row.index + 1 < claim.sub.repeatCount)
        || claim.sub.cooldown == UntilRecovery)
    && IsOpen(incidents, IncidentOf(claim.event))
  }

  function RepeatRow(user: UserId, claim: Claim, deliveredAt: int): Row {
    Row(user, Pending, 0,
        Deferred(deliveredAt + claim.sub.cooldownSeconds * 1000, claim.priority, claim.offset,
                 claim.sub.quietStart, claim.sub.quietEnd),
        None, None, deliveredAt)
  }

  /** scheduleRepeat, an INSERT OR IGNORE. */
  function ScheduleRepeat(incidents: map<IncidentKey, Incident>, rows: map<RowKey, Row>, claim: Claim, deliveredAt: int): map<RowKey, Row>
    requires claim.row in rows
  {
    var next := NextInChain(claim.row);
    if Repeating(incidents, claim) && next !in rows then
      rows[next := RepeatRow(rows[claim.row].user, claim, deliveredAt)]
    else rows
  }

  function MarkDelivered(row: Row, at: int): Row {
    row.(status := Delivered, deliveredAt := Some(at), leaseUntil := None)
  }

  /** processDeliveries after the provider has succeeded; `persisted` is false when the completing
      transaction fails, which the source answers by failing the row. */
  function FinishRows(incidents: map<IncidentKey, Incident>, rows: map<RowKey, Row>, claim: Claim, now: int, persisted: bool): map<RowKey, Row> {
    if OutageOver(incidents, claim) then Abandon(rows, claim)
    else if Holds(rows, claim) && persisted then
      ScheduleRepeat(incidents, rows[claim.row := MarkDelivered(rows[claim.row], now)], claim, now)
    else GiveUp(rows, claim)
  }

  function RetryDelaySeconds(attempt: int): Option<int> {
    if attempt == 0 then Some(60)
    else if attempt == 1 then Some(300)
    else if attempt == 2 then Some(900)
    else if attempt == 3 then Some(3600)
    else if attempt == 4 then Some(21600)
    else None
  }

  /** failDelivery; `later` is the second clock reading. */
  function FailRows(incidents: map<IncidentKey, Incident>, rows: map<RowKey, Row>, claim: Claim, later: int): map<RowKey, Row> {
    if OutageOver(incidents, claim) then Abandon(rows, claim)
    else
      match RetryDelaySeconds(claim.attempts - 1)
      case None => GiveUp(rows, claim)
      case Some(delay) =>
        if Holds(rows, claim) then
          rows[claim.row := rows[claim.row].(status := Pending, leaseUntil := None, nextAttemptAt := later + delay * 1000)]
        else rows
  }

  function Finished(s: State, claim: Claim, now: int, persisted: bool): State {
    s.(now := now, held := s.held - {claim}, rows := FinishRows(s.incidents, s.rows, claim, now, persisted))
  }

  function FailedBy(s: State, claim: Claim, later: int): State {
    s.(now := later, held := s.held - {claim}, rows := FailRows(s.incidents, s.rows, claim, later))
  }

  // ---------------------------------------------------------------------------
  // Runs

  /** One clock serves the outbox and its callers: an action either reads it or leaves it alone. */
  predicate ClockFits(now: int, before: State, after: State) {
    now <= after.now || after.now == before.now
  }

  function Later(a: int, b: int): int {
    if a <= b then b else a
  }

  datatype Action =
    | Configure(dir: Directory)
    | EmitEvent(id: EventId, event: Event, target: Option<UserId>, now: int)
    | SweepResolvedRows(now: int)
    | SweepUnauthorizedRows(now: int)
    | ClaimRow(row: RowKey, now: int, later: int)
    | FinishClaim(claim: Claim, now: int, persisted: bool)
    | FailClaim(claim: Claim, now: int, later: int)

  /** Event e was stored under this idempotency key of the project. */
  predicate RecordedUnder(events: map<EventId, Event>, project: ProjectId, key: string, e: EventId) {
    e in events && events[e].project == project && events[e].idempotencyKey == Some(key)
  }

  ghost function FindByKey(events: map<EventId, Event>, project: ProjectId, key: Option<string>): (found: Option<EventId>)
    ensures found.Some? ==> key.Some? && RecordedUnder(events, project, key.value, found.value)
    ensures found.None? && key.Some? ==> forall e :: !RecordedUnder(events, project, key.value, e)
  {
    if key.Some? && exists e :: RecordedUnder(events, project, key.value, e) then
      var e :| RecordedUnder(events, project, key.value, e);
      Some(e)
    else None
  }

  ghost predicate KeysUnique(events: map<EventId, Event>) {
    forall project, key, d, e ::
      RecordedUnder(events, project, key, d) && RecordedUnder(events, project, key, e) ==> d == e
  }

  /** What the code guarantees of an event it stores: a fresh id, its clock reading, a dedupe key on
      lifecycle events, and an idempotency key its project has not used, UNIQUE(project_id, idempotency_key). */
  ghost predicate Emittable(s: State, id: EventId, event: Event, now: int) {
    && id !in s.events && s.now <= now && event.createdAt == now
    && (event.lifecycle != Plain ==> event.key.Some?)
    && (event.idempotencyKey.Some? ==> forall e :: !RecordedUnder(s.events, event.project, event.idempotencyKey.value, e))
  }

  ghost predicate Enabled(s: State, a: Action) {
    match a
    case Configure(dir) => s.dir.subs.Keys <= dir.subs.Keys && s.dir.users.Keys <= dir.users.Keys
    case EmitEvent(id, event, _, now) => Emittable(s, id, event, now)
    case SweepResolvedRows(now) => s.now <= now
    case SweepUnauthorizedRows(now) => s.now <= now
    case ClaimRow(row, now, later) => s.now <= now <= later && FirstClaimable(s, row, now)
    case FinishClaim(claim, now, _) => claim in s.held && s.now <= now
    case FailClaim(claim, now, later) => claim in s.held && s.now <= now <= later
  }

  ghost function Apply(s: State, a: Action): State
    requires Enabled(s, a)
  {
    match a
    case Configure(dir) => s.(dir := dir)
    case EmitEvent(id, event, target, now) => Emit(s, id, event, target, now)
    case SweepResolvedRows(now) => SweepResolved(s, now)
    case SweepUnauthorizedRows(now) => SweepUnauthorized(s, now)
    case ClaimRow(row, now, later) => TakeClaim(s, row, now, later)
    case FinishClaim(claim, now, persisted) => Finished(s, claim, now, persisted)
    case FailClaim(claim, now, later) => FailedBy(s, claim, later)
  }

  ghost predicate Initial(s: State) {
    && s.events == map[] && s.incidents == map[] && s.rows == map[]
    && s.held == {} && s.issued == [] && s.outages == map[] && s.outage == map[]
  }

  ghost predicate Next(s: State, s': State) {
    exists a: Action :: Enabled(s, a) && s' == Apply(s, a)
  }

  /** Every state of a run, in order. */
  ghost predicate IsRun(run: seq<State>) {
    && run != [] && Initial(run[0])
    && forall i, j {:trigger Next(run[i], run[j])} :: 0 <= i < j < |run| && j == i + 1 ==> Next(run[i], run[j])
  }
}
