/** Alerts on top of the notification outbox (apps/server/src/alerts.ts). The statements of updateAlertState
    are separate actions here, so a crash may fall between any two of them, and any foreign action of the
    outbox may come between any two calls. */
module Alerts {
  import opened Wrappers
  import opened Incidents
  import O = Outbox
  import Steps = OutboxSteps
  import Runs = OutboxRuns
  import E = Emission
  import StableJson

  type AlertId = nat

  datatype SourceKind = Node | Endpoint | EndpointNode | Ai | AiTarget | AiNode | Other

  datatype Source = Source(kind: SourceKind, id: nat)

  /** A built-in project with its alert event types. */
  datatype Entry = Entry(project: O.ProjectId, onOpened: O.TypeId, onRecovered: O.TypeId)

  datatype Catalogue = Catalogue(infrastructure: Entry, endpoints: Entry, upstreams: Entry, system: Entry)
  {
    /** projectForAlertSource */
    function For(kind: SourceKind): Entry {
      match kind
      case Node => infrastructure
      case Endpoint => endpoints
      case EndpointNode => endpoints
      case Ai => upstreams
      case AiTarget => upstreams
      case AiNode => upstreams
      case Other => system
    }
  }

  datatype AlertStatus = Firing | Cleared

  datatype Alert = Alert(
    source: Source,
    severity: string,
    title: string,
    message: string,
    status: AlertStatus,
    openedAt: int,
    resolvedAt: Option<int>,
    notifiedAt: Option<int>,
    recoveryNotifiedAt: Option<int>)

  /** One clock for the alert table and the outbox. */
  datatype System = System(now: int, out: O.State, alerts: map<AlertId, Alert>)

  /** The project of a source, by the name of its kind. */
  lemma ProjectsByName(cat: Catalogue, kind: SourceKind)
    ensures cat.For(kind) ==
      if KindName(kind) == "node" then cat.infrastructure
      else if KindName(kind) in {"endpoint", "endpoint_node"} then cat.endpoints
      else if KindName(kind) in {"ai", "ai_target", "ai_node"} then cat.upstreams
      else cat.system
  {
    assert KindName(kind)[0] == 'n' || KindName(kind)[0] == 'e' || KindName(kind)[0] == 'a' || KindName(kind)[0] == 's';
  }

  // ---------------------------------------------------------------------------
  // Keys

  function OpenedKey(id: AlertId): string {
    "alert-opened:" + E.Digits(id)
  }

  function RecoveredKey(id: AlertId): string {
    "alert-recovered:" + E.Digits(id)
  }

  lemma KeysDiffer(a: AlertId, b: AlertId)
    ensures OpenedKey(a) != RecoveredKey(b)
    ensures a != b ==> OpenedKey(a) != OpenedKey(b) && RecoveredKey(a) != RecoveredKey(b)
  {
    assert OpenedKey(a)[6] == 'o' && RecoveredKey(b)[6] == 'r';
    assert OpenedKey(a)[13..] == E.Digits(a) && OpenedKey(b)[13..] == E.Digits(b);
    assert RecoveredKey(a)[16..] == E.Digits(a) && RecoveredKey(b)[16..] == E.Digits(b);
    if E.Digits(a) == E.Digits(b) { E.DigitsSeparate(a, b); }
  }

  // ---------------------------------------------------------------------------
  // The two emissions

  function PriorityOf(severity: string): int {
    if severity == "critical" then 5 else if severity == "warning" then 4 else 3
  }

  function KindName(kind: SourceKind): string {
    match kind
    case Node => "node"
    case Endpoint => "endpoint"
    case EndpointNode => "endpoint_node"
    case Ai => "ai"
    case AiTarget => "ai_target"
    case AiNode => "ai_node"
    case Other => "system"
  }

  function SourceData(alert: Alert, message: string): StableJson.Json {
    StableJson.Obj(
      StableJson.Field("sourceType", StableJson.Str(KindName(alert.source.kind)),
        StableJson.Field("sourceId", StableJson.Num(E.Numeral(alert.source.id)),
          StableJson.Field("sourceName", StableJson.Str(alert.title),
            StableJson.Field("message", StableJson.Str(message), StableJson.End)))))
  }

  function OpenedRequest(cat: Catalogue, id: AlertId, alert: Alert): E.Request {
    E.Request(Some(cat.For(alert.source.kind).onOpened), SourceData(alert, alert.message), Some(PriorityOf(alert.severity)),
              alert.title, alert.message, Some(id), Some(OpenedKey(id)), Some(alert.openedAt), None, E.Fits, true)
  }

  function RecoveredRequest(cat: Catalogue, id: AlertId, alert: Alert, at: int): E.Request {
    E.Request(Some(cat.For(alert.source.kind).onRecovered), SourceData(alert, "服务已恢复"), Some(3),
              "已恢复：" + alert.title, "服务已恢复。\n\n恢复时间：" + E.Numeral(at), Some(id), Some(RecoveredKey(id)), Some(at), None, E.Fits, true)
  }

  lemma ThreeOn(f: StableJson.Fields, key: string)
    requires f.Field? && f.rest.Field? && f.rest.rest.Field?
    ensures StableJson.Look(f, key) ==
      if f.key == key then Some(f.value) else if f.rest.key == key then Some(f.rest.value)
      else if f.rest.rest.key == key then Some(f.rest.rest.value) else StableJson.Look(f.rest.rest.rest, key)
  {
    StableJson.LookOn(f, key);
    StableJson.LookOn(f.rest, key);
    StableJson.LookOn(f.rest.rest, key);
  }

  lemma DataDescribes(alert: Alert, message: string)
    ensures Describes(StableJson.StableStringify(SourceData(alert, message)), alert, message)
  {
    var f := SourceData(alert, message).fields;
    ThreeOn(f, "sourceType");
    ThreeOn(f, "sourceId");
    ThreeOn(f, "sourceName");
    ThreeOn(f, "message");
    StableJson.LookOn(f.rest.rest.rest, "message");
    assert Members(f, alert, message);
  }

  /** Events of a kind reach the event types of their own project. */
  ghost predicate Registered(cat: Catalogue, dir: O.Directory) {
    forall kind: SourceKind ::
      var entry := cat.For(kind);
      && (entry.onOpened in dir.types ==>
            dir.types[entry.onOpened].project == entry.project && dir.types[entry.onOpened].lifecycle == Opened)
      && (entry.onRecovered in dir.types ==>
            dir.types[entry.onRecovered].project == entry.project && dir.types[entry.onRecovered].lifecycle == Recovered)
  }

  /** The event speaks of alert `id`, by its dedupe key or its idempotency key. */
  predicate Mentions(event: O.Event, project: O.ProjectId, id: AlertId) {
    event.project == project
    && (event.key == Some(id) || event.idempotencyKey == Some(OpenedKey(id)) || event.idempotencyKey == Some(RecoveredKey(id)))
  }

  ghost predicate Unmentioned(out: O.State, project: O.ProjectId, id: AlertId) {
    (forall e :: e in out.events ==> !Mentions(out.events[e], project, id)) && O.IncidentKey(project, id) !in out.incidents
  }

  ghost predicate HasOpened(out: O.State, project: O.ProjectId, id: AlertId) {
    exists e :: O.RecordedUnder(out.events, project, OpenedKey(id), e)
  }

  ghost predicate HasRecovered(out: O.State, project: O.ProjectId, id: AlertId) {
    exists e :: O.RecordedUnder(out.events, project, RecoveredKey(id), e)
  }

  // ---------------------------------------------------------------------------
  // Actions

  datatype Action =
    | Raise(id: AlertId, source: Source, severity: string, title: string, message: string, now: int)
    | Announce(id: AlertId, event: EventId, clock: int, now: int, saved: bool)
    | Clear(id: AlertId, now: int)
    | AnnounceRecovery(id: AlertId, event: EventId, clock: int, now: int, saved: bool)
    | Elsewhere(out: O.State)

  /** An outbox action that is not about any alert: other callers use other keys. */
  ghost predicate Foreign(cat: Catalogue, s: System, out: O.State) {
    forall e, id :: e in out.events && e !in s.out.events && id in s.alerts ==>
      !Mentions(out.events[e], cat.For(s.alerts[id].source.kind).project, id)
  }

  ghost predicate Possible(cat: Catalogue, s: System, a: Action) {
    match a
    case Raise(id, source, _, _, _, now) =>
      && id !in s.alerts && s.now <= now && Unmentioned(s.out, cat.For(source.kind).project, id)
      && forall b :: b in s.alerts && s.alerts[b].source == source ==> s.alerts[b].status == Cleared
    case Announce(id, event, _, now, _) =>
      && id in s.alerts && s.alerts[id].status == Firing && s.alerts[id].notifiedAt.None?
      && event !in s.out.events && s.now <= now
    case Clear(id, now) => id in s.alerts && s.alerts[id].status == Firing && s.now <= now
    case AnnounceRecovery(id, event, _, now, _) =>
      && id in s.alerts && s.alerts[id].status == Cleared && s.alerts[id].recoveryNotifiedAt.None?
      && s.alerts[id].resolvedAt.Some? && event !in s.out.events && s.now <= now
    case Elsewhere(out) => O.Next(s.out, out) && O.ClockFits(s.now, s.out, out) && Foreign(cat, s, out) && Registered(cat, out.dir)
  }

  /** The emission of one alert's request: the outbox, and whether the call returned. */
  ghost function Send(out: O.State, event: EventId, req: E.Request, clock: int, now: int): (O.State, bool) {
    var (after, r) := E.EmitRequest(out, event, req, clock, now);
    (after, r.Ok?)
  }

  ghost function Apply(cat: Catalogue, s: System, a: Action): System
    requires Possible(cat, s, a)
  {
    match a
    case Raise(id, source, severity, title, message, now) =>
      s.(now := now, alerts := s.alerts[id := Alert(source, severity, title, message, Firing, now, None, None, None)])
    case Announce(id, event, clock, now, saved) =>
      var (out, sent) := Send(s.out, event, OpenedRequest(cat, id, s.alerts[id]), clock, now);
      System(now, out, if sent && saved then s.alerts[id := s.alerts[id].(notifiedAt := Some(now))] else s.alerts)
    case Clear(id, now) =>
      s.(now := now, alerts := s.alerts[id := s.alerts[id].(status := Cleared, resolvedAt := Some(now))])
    case AnnounceRecovery(id, event, clock, now, saved) =>
      var (out, sent) := Send(s.out, event, RecoveredRequest(cat, id, s.alerts[id], s.alerts[id].resolvedAt.value), clock, now);
      System(now, out, if sent && saved then s.alerts[id := s.alerts[id].(recoveryNotifiedAt := Some(now))] else s.alerts)
    case Elsewhere(out) => System(O.Later(s.now, out.now), out, s.alerts)
  }

  ghost predicate Initial(cat: Catalogue, s: System) {
    s.alerts == map[] && O.Initial(s.out) && s.out.now <= s.now && Registered(cat, s.out.dir)
  }

  /** A run: the actions taken, and the states before, between and after them. */
  datatype Run = Run(cat: Catalogue, states: seq<System>, actions: seq<Action>)
  {
    ghost predicate StepOk(i: nat)
      requires i < |actions| && |states| == |actions| + 1
    {
      Possible(cat, states[i], actions[i]) && states[i + 1] == Apply(cat, states[i], actions[i])
    }

    ghost predicate Valid() {
      && |states| == |actions| + 1 && Initial(cat, states[0])
      && forall i {:trigger StepOk(i)} :: 0 <= i < |actions| ==> StepOk(i)
    }
  }

  ghost predicate EndsRun(run: Run, cat: Catalogue, s: System) {
    run.Valid() && run.cat == cat && run.states[|run.actions|] == s
  }

  /** Some run of the machine ends here. */
  ghost predicate Reachable(cat: Catalogue, s: System) {
    exists run :: EndsRun(run, cat, s)
  }

  // ---------------------------------------------------------------------------
  // What every reachable state satisfies

  /** The data of an event names the alert's source, its title and a message. */
  ghost predicate Describes(data: string, alert: Alert, message: string) {
    exists f :: data == StableJson.StableStringify(StableJson.Obj(f)) && Members(f, alert, message)
  }

  ghost predicate Members(f: StableJson.Fields, alert: Alert, message: string) {
    && StableJson.Look(f, "sourceType") == Some(StableJson.Str(KindName(alert.source.kind)))
    && StableJson.Look(f, "sourceId") == Some(StableJson.Num(E.Numeral(alert.source.id)))
    && StableJson.Look(f, "sourceName") == Some(StableJson.Str(alert.title))
    && StableJson.Look(f, "message") == Some(StableJson.Str(message))
  }

  /** The opening event of an alert tells its title and message, with five for critical, four for a warning and three
      for anything else. */
  ghost predicate OpeningEvent(entry: Entry, event: O.Event, id: AlertId, alert: Alert) {
    && event.key == Some(id) && event.idempotencyKey == Some(OpenedKey(id))
    && event.lifecycle == Opened && event.occurredAt == alert.openedAt && event.eventType == entry.onOpened
    && event.title == alert.title && event.body == alert.message && Describes(event.data, alert, alert.message)
    && event.priority == (if alert.severity == "critical" then 5 else if alert.severity == "warning" then 4 else 3)
  }

  ghost predicate RecoveryEvent(entry: Entry, event: O.Event, id: AlertId, alert: Alert) {
    && event.key == Some(id) && event.idempotencyKey == Some(RecoveredKey(id))
    && event.lifecycle == Recovered && alert.resolvedAt == Some(event.occurredAt) && event.eventType == entry.onRecovered
    && event.title == "已恢复：" + alert.title && event.priority == 3
    && event.body == "服务已恢复。\n\n恢复时间：" + E.Numeral(event.occurredAt) && Describes(event.data, alert, "服务已恢复")
  }

  ghost predicate EventsOk(out: O.State, entry: Entry, id: AlertId, alert: Alert) {
    forall e :: e in out.events && Mentions(out.events[e], entry.project, id) ==>
      OpeningEvent(entry, out.events[e], id, alert) || RecoveryEvent(entry, out.events[e], id, alert)
  }

  ghost predicate IncidentOk(out: O.State, project: O.ProjectId, id: AlertId, alert: Alert) {
    var current := O.Lookup(out.incidents, O.IncidentKey(project, id));
    if HasRecovered(out, project, id) then current.Some? && current.value.status == Resolved
    else if HasOpened(out, project, id) then
      && current.Some? && current.value.status == Open && current.value.resolvedAt.None?
      && current.value.lastOpenedAt == Some(alert.openedAt)
    else current.None?
  }

  ghost predicate AlertOk(cat: Catalogue, out: O.State, id: AlertId, alert: Alert) {
    var project := cat.For(alert.source.kind).project;
    && (alert.status == Cleared <==> alert.resolvedAt.Some?)
    && (alert.resolvedAt.Some? ==> alert.openedAt <= alert.resolvedAt.value)
    && EventsOk(out, cat.For(alert.source.kind), id, alert) && IncidentOk(out, project, id, alert)
    && (alert.notifiedAt.Some? ==> HasOpened(out, project, id))
    && (alert.recoveryNotifiedAt.Some? ==> HasRecovered(out, project, id))
  }

  ghost predicate OneFiring(alerts: map<AlertId, Alert>) {
    forall a, b ::
      a in alerts && b in alerts && alerts[a].status == Firing && alerts[b].status == Firing && alerts[a].source == alerts[b].source
      ==> a == b
  }

  ghost predicate Good(cat: Catalogue, s: System) {
    && O.KeysUnique(s.out.events) && s.out.now <= s.now && Registered(cat, s.out.dir) && OneFiring(s.alerts)
    && (forall id :: id in s.alerts ==> s.alerts[id].openedAt <= s.now && AlertOk(cat, s.out, id, s.alerts[id]))
  }
}
