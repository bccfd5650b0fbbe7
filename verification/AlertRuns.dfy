/** The alert table agrees with the incident table in every state of every run. */
module AlertRuns {
  import opened Wrappers
  import opened Incidents
  import opened Alerts
  import O = Outbox
  import Steps = OutboxSteps
  import Runs = OutboxRuns
  import opened OutboxIncidents
  import E = Emission
  import StableJson

  // ---------------------------------------------------------------------------
  // The outbox, one action at a time

  /** What one emission does to events and incidents. */
  ghost predicate Emitted(out: O.State, out': O.State, e: EventId, project: O.ProjectId, lifecycle: Lifecycle, req: E.Request) {
    && Stored(out, out', e) && req.idempotencyKey.Some?
    && out'.events[e].project == project && out'.events[e].lifecycle == lifecycle
    && out'.events[e].key == req.dedupeKey && out'.events[e].idempotencyKey == req.idempotencyKey
    && (req.occurredAt.Some? ==> out'.events[e].occurredAt == req.occurredAt.value)
    && req.eventType == Some(out'.events[e].eventType) && (req.priority.Some? ==> out'.events[e].priority == req.priority.value)
    && out'.events[e].title == req.title && out'.events[e].body == req.body && out'.events[e].data == StableJson.StableStringify(req.data)
    && (forall d :: !O.RecordedUnder(out.events, project, req.idempotencyKey.value, d))
  }

  lemma DecisionMoves(out: O.State, e: EventId, req: E.Request, c: E.Content, now: int)
    requires req.idempotencyKey.Some? && e !in out.events && out.now <= now && c.eventType in out.dir.types
    requires c.dedupeKey == req.dedupeKey && c.occurredAt == req.occurredAt && c.lifecycle == out.dir.types[c.eventType].lifecycle
    requires c.dedupeKey.Some? && req.eventType == Some(c.eventType) && (req.priority.Some? ==> req.priority.value == c.priority)
    requires c.title == req.title && c.body == req.body && c.data == req.data
    ensures var (out', r) := E.Decide(out, e, req, c, now);
      var project := out.dir.types[c.eventType].project;
      && (out' == out || (Emitted(out, out', e, project, c.lifecycle, req) && O.Next(out, out') && out'.now == now && out'.dir == out.dir))
      && (r.Ok? ==> exists d :: O.RecordedUnder(out'.events, project, req.idempotencyKey.value, d))
  {
    var event := E.EventOf(out.dir, req, c, now);
    var found := O.FindByKey(out.events, event.project, req.idempotencyKey);
    var (out', r) := E.Decide(out, e, req, c, now);
    if found.None? {
      assert O.Emittable(out, e, event, now);
      Runs.EmitIsStep(out, e, event, req.target, now);
      EmitMoves(out, e, event, req.target, now);
      assert O.RecordedUnder(out'.events, event.project, req.idempotencyKey.value, e);
    }
  }

  /** An alert's emission either changes nothing or stores its one event; if the call returns, that event is
      there. */
  lemma SendMoves(out: O.State, e: EventId, req: E.Request, clock: int, now: int, project: O.ProjectId, lifecycle: Lifecycle)
    requires req.idempotencyKey.Some? && req.dedupeKey.Some? && req.eventType.Some? && e !in out.events && out.now <= now
    requires req.eventType.value in out.dir.types ==>
      out.dir.types[req.eventType.value].project == project && out.dir.types[req.eventType.value].lifecycle == lifecycle
    ensures var (out', sent) := Send(out, e, req, clock, now);
      && (out' == out || (Emitted(out, out', e, project, lifecycle, req) && O.Next(out, out') && out'.now == now && out'.dir == out.dir))
      && (sent ==> exists d :: O.RecordedUnder(out'.events, project, req.idempotencyKey.value, d))
  {
    var prepared := E.Prepare(out.dir, req, clock);
    if prepared.Ok? && req.fence { DecisionMoves(out, e, req, prepared.value, now); }
  }

  // ---------------------------------------------------------------------------
  // One alert

  lemma SameTablesKeepAlert(cat: Catalogue, out: O.State, out': O.State, id: AlertId, alert: Alert)
    requires AlertOk(cat, out, id, alert) && out'.events == out.events && out'.incidents == out.incidents
    ensures AlertOk(cat, out', id, alert)
  {
  }

  lemma RecordsKept(out: O.State, out': O.State, e: EventId, project: O.ProjectId, key: string)
    requires Stored(out, out', e) && out'.events[e].idempotencyKey != Some(key)
    ensures (exists d :: O.RecordedUnder(out'.events, project, key, d)) <==> (exists d :: O.RecordedUnder(out.events, project, key, d))
  {
    if d :| O.RecordedUnder(out.events, project, key, d) { assert O.RecordedUnder(out'.events, project, key, d); }
    if d :| O.RecordedUnder(out'.events, project, key, d) { assert O.RecordedUnder(out.events, project, key, d); }
  }

  lemma RecordsKeptElsewhere(out: O.State, out': O.State, e: EventId, project: O.ProjectId, key: string)
    requires Stored(out, out', e) && out'.events[e].project != project
    ensures (exists d :: O.RecordedUnder(out'.events, project, key, d)) <==> (exists d :: O.RecordedUnder(out.events, project, key, d))
  {
    if d :| O.RecordedUnder(out.events, project, key, d) { assert O.RecordedUnder(out'.events, project, key, d); }
    if d :| O.RecordedUnder(out'.events, project, key, d) { assert O.RecordedUnder(out.events, project, key, d); }
  }

  /** An event about something else leaves the alert's events and incident alone. */
  lemma ForeignEventKeepsAlert(cat: Catalogue, out: O.State, out': O.State, e: EventId, id: AlertId, alert: Alert)
    requires AlertOk(cat, out, id, alert) && Stored(out, out', e)
    requires !Mentions(out'.events[e], cat.For(alert.source.kind).project, id)
    ensures AlertOk(cat, out', id, alert)
  {
    var project := cat.For(alert.source.kind).project;
    if out'.events[e].project == project {
      RecordsKept(out, out', e, project, OpenedKey(id));
      RecordsKept(out, out', e, project, RecoveredKey(id));
    } else {
      RecordsKeptElsewhere(out, out', e, project, OpenedKey(id));
      RecordsKeptElsewhere(out, out', e, project, RecoveredKey(id));
    }
    assert O.Lookup(out'.incidents, O.IncidentKey(project, id)) == O.Lookup(out.incidents, O.IncidentKey(project, id));
    assert EventsOk(out', cat.For(alert.source.kind), id, alert);
  }

  /** The opening of a firing alert opens its incident. */
  lemma OpeningKeepsAlert(cat: Catalogue, out: O.State, out': O.State, e: EventId, id: AlertId, alert: Alert)
    requires AlertOk(cat, out, id, alert) && alert.status == Firing
    requires Emitted(out, out', e, cat.For(alert.source.kind).project, Opened, OpenedRequest(cat, id, alert))
    ensures AlertOk(cat, out', id, alert)
  {
    var project := cat.For(alert.source.kind).project;
    KeysDiffer(id, id);
    RecordsKept(out, out', e, project, RecoveredKey(id));
    NotRecovered(cat, out, id, alert);
    DataDescribes(alert, alert.message);
    assert O.RecordedUnder(out'.events, project, OpenedKey(id), e);
    assert EventsOk(out', cat.For(alert.source.kind), id, alert);
    assert !HasOpened(out, project, id);
    assert O.Lookup(out.incidents, O.IncidentKey(project, id)).None?;
    assert IncidentOk(out', project, id, alert);
  }

  lemma NotRecovered(cat: Catalogue, out: O.State, id: AlertId, alert: Alert)
    requires AlertOk(cat, out, id, alert) && alert.status == Firing
    ensures !HasRecovered(out, cat.For(alert.source.kind).project, id)
  {
  }

  /** The recovery of a cleared alert closes its incident, even in the millisecond that opened it. */
  lemma RecoveryKeepsAlert(cat: Catalogue, out: O.State, out': O.State, e: EventId, id: AlertId, alert: Alert)
    requires AlertOk(cat, out, id, alert) && alert.resolvedAt.Some?
    requires Emitted(out, out', e, cat.For(alert.source.kind).project, Recovered, RecoveredRequest(cat, id, alert, alert.resolvedAt.value))
    ensures AlertOk(cat, out', id, alert)
  {
    var project := cat.For(alert.source.kind).project;
    KeysDiffer(id, id);
    RecordsKept(out, out', e, project, OpenedKey(id));
    DataDescribes(alert, "服务已恢复");
    assert O.RecordedUnder(out'.events, project, RecoveredKey(id), e);
    assert EventsOk(out', cat.For(alert.source.kind), id, alert);
    assert !HasRecovered(out, project, id);
    assert IncidentOk(out', project, id, alert);
  }

  // ---------------------------------------------------------------------------
  // All alerts

  lemma MentionsOne(event: O.Event, project: O.ProjectId, a: AlertId, b: AlertId)
    requires a != b && event.key == Some(a) && (event.idempotencyKey == Some(OpenedKey(a)) || event.idempotencyKey == Some(RecoveredKey(a)))
    ensures !Mentions(event, project, b)
  {
    KeysDiffer(a, b);
    KeysDiffer(b, a);
  }

  lemma KeysStayUnique(out: O.State, out': O.State)
    requires O.KeysUnique(out.events) && (out' == out || O.Next(out, out'))
    ensures O.KeysUnique(out'.events)
  {
    if out' != out { Runs.StepKeepsKeysUnique(out, out'); }
  }

  lemma RaiseKeepsGood(cat: Catalogue, s: System, a: Action)
    requires Good(cat, s) && Possible(cat, s, a) && a.Raise?
    ensures Good(cat, Apply(cat, s, a))
  {
    var s' := Apply(cat, s, a);
    var project := cat.For(a.source.kind).project;
    assert !HasOpened(s.out, project, a.id) && !HasRecovered(s.out, project, a.id) by {
      if e :| O.RecordedUnder(s.out.events, project, OpenedKey(a.id), e) { assert Mentions(s.out.events[e], project, a.id); }
      if e :| O.RecordedUnder(s.out.events, project, RecoveredKey(a.id), e) { assert Mentions(s.out.events[e], project, a.id); }
    }
    assert AlertOk(cat, s'.out, a.id, s'.alerts[a.id]);
  }

  lemma SameDescription(data: string, before: Alert, after: Alert, message: string)
    requires Describes(data, before, message) && after.source == before.source && after.title == before.title
    ensures Describes(data, after, message)
  {
    var f :| data == StableJson.StableStringify(StableJson.Obj(f)) && Members(f, before, message);
    assert Members(f, after, message);
  }

  lemma ClearKeepsGood(cat: Catalogue, s: System, a: Action)
    requires Good(cat, s) && Possible(cat, s, a) && a.Clear?
    ensures Good(cat, Apply(cat, s, a))
  {
    var s' := Apply(cat, s, a);
    var entry := cat.For(s.alerts[a.id].source.kind);
    var project := entry.project;
    NotRecovered(cat, s.out, a.id, s.alerts[a.id]);
    forall e | e in s.out.events && Mentions(s.out.events[e], project, a.id)
      ensures OpeningEvent(entry, s.out.events[e], a.id, s'.alerts[a.id])
    {
      assert OpeningEvent(entry, s.out.events[e], a.id, s.alerts[a.id]) || RecoveryEvent(entry, s.out.events[e], a.id, s.alerts[a.id]);
      SameDescription(s.out.events[e].data, s.alerts[a.id], s'.alerts[a.id], s.alerts[a.id].message);
    }
    assert AlertOk(cat, s'.out, a.id, s'.alerts[a.id]);
  }

  /** An alert's own emission, for the other alerts. */
  lemma SendKeepsOthers(cat: Catalogue, s: System, out': O.State, e: EventId, id: AlertId, project: O.ProjectId, lifecycle: Lifecycle, req: E.Request, b: AlertId)
    requires Good(cat, s) && b in s.alerts && b != id
    requires out' == s.out || Emitted(s.out, out', e, project, lifecycle, req)
    requires req.dedupeKey == Some(id) && (req.idempotencyKey == Some(OpenedKey(id)) || req.idempotencyKey == Some(RecoveredKey(id)))
    ensures AlertOk(cat, out', b, s.alerts[b])
  {
    if out' != s.out {
      MentionsOne(out'.events[e], cat.For(s.alerts[b].source.kind).project, id, b);
      ForeignEventKeepsAlert(cat, s.out, out', e, b, s.alerts[b]);
    }
  }

  /** The same alert, possibly marked as announced. */
  predicate Marked(before: Alert, after: Alert) {
    after == before.(notifiedAt := after.notifiedAt, recoveryNotifiedAt := after.recoveryNotifiedAt)
  }

  lemma SendKeepsGood(cat: Catalogue, s: System, s': System, e: EventId, id: AlertId, project: O.ProjectId, lifecycle: Lifecycle, req: E.Request)
    requires Good(cat, s) && id in s.alerts && s.now <= s'.now && s'.out.dir == s.out.dir && s'.out.now <= s'.now
    requires s'.out == s.out || (Emitted(s.out, s'.out, e, project, lifecycle, req) && O.Next(s.out, s'.out))
    requires req.dedupeKey == Some(id) && (req.idempotencyKey == Some(OpenedKey(id)) || req.idempotencyKey == Some(RecoveredKey(id)))
    requires id in s'.alerts && s'.alerts == s.alerts[id := s'.alerts[id]] && Marked(s.alerts[id], s'.alerts[id])
    requires AlertOk(cat, s'.out, id, s'.alerts[id])
    ensures Good(cat, s')
  {
    KeysStayUnique(s.out, s'.out);
    forall b | b in s.alerts && b != id ensures AlertOk(cat, s'.out, b, s.alerts[b]) {
      SendKeepsOthers(cat, s, s'.out, e, id, project, lifecycle, req, b);
    }
  }

  lemma MarkKeepsAlert(cat: Catalogue, out: O.State, id: AlertId, alert: Alert, marked: Alert)
    requires AlertOk(cat, out, id, alert) && Marked(alert, marked)
    requires marked.notifiedAt != alert.notifiedAt ==> HasOpened(out, cat.For(alert.source.kind).project, id)
    requires marked.recoveryNotifiedAt != alert.recoveryNotifiedAt ==> HasRecovered(out, cat.For(alert.source.kind).project, id)
    ensures AlertOk(cat, out, id, marked)
  {
  }

  lemma AnnounceKeepsGood(cat: Catalogue, s: System, a: Action)
    requires Good(cat, s) && Possible(cat, s, a) && a.Announce?
    ensures Good(cat, Apply(cat, s, a))
  {
    var alert := s.alerts[a.id];
    var project, req := cat.For(alert.source.kind).project, OpenedRequest(cat, a.id, alert);
    var (out, sent) := Send(s.out, a.event, req, a.clock, a.now);
    SendMoves(s.out, a.event, req, a.clock, a.now, project, Opened);
    AnnouncedIsGood(cat, s, a, out, sent);
  }

  lemma AnnouncedIsGood(cat: Catalogue, s: System, a: Action, out: O.State, sent: bool)
    requires Good(cat, s) && a.Announce? && a.id in s.alerts && s.alerts[a.id].status == Firing && s.now <= a.now
    requires var req, project := OpenedRequest(cat, a.id, s.alerts[a.id]), cat.For(s.alerts[a.id].source.kind).project;
      && (out == s.out || (Emitted(s.out, out, a.event, project, Opened, req) && O.Next(s.out, out) && out.now == a.now && out.dir == s.out.dir))
      && (sent ==> HasOpened(out, project, a.id))
    ensures Good(cat, System(a.now, out, if sent && a.saved then s.alerts[a.id := s.alerts[a.id].(notifiedAt := Some(a.now))] else s.alerts))
  {
    var alert := s.alerts[a.id];
    var project, req := cat.For(alert.source.kind).project, OpenedRequest(cat, a.id, alert);
    if out != s.out { OpeningKeepsAlert(cat, s.out, out, a.event, a.id, alert); }
    var s' := System(a.now, out, if sent && a.saved then s.alerts[a.id := alert.(notifiedAt := Some(a.now))] else s.alerts);
    MarkKeepsAlert(cat, out, a.id, alert, s'.alerts[a.id]);
    SendKeepsGood(cat, s, s', a.event, a.id, project, Opened, req);
  }

  lemma AnnounceRecoveryKeepsGood(cat: Catalogue, s: System, a: Action)
    requires Good(cat, s) && Possible(cat, s, a) && a.AnnounceRecovery?
    ensures Good(cat, Apply(cat, s, a))
  {
    var alert := s.alerts[a.id];
    var project, req := cat.For(alert.source.kind).project, RecoveredRequest(cat, a.id, alert, alert.resolvedAt.value);
    var (out, sent) := Send(s.out, a.event, req, a.clock, a.now);
    SendMoves(s.out, a.event, req, a.clock, a.now, project, Recovered);
    RecoveryIsGood(cat, s, a, out, sent);
  }

  lemma RecoveryIsGood(cat: Catalogue, s: System, a: Action, out: O.State, sent: bool)
    requires Good(cat, s) && a.AnnounceRecovery? && a.id in s.alerts && s.alerts[a.id].resolvedAt.Some? && s.now <= a.now
    requires var req := RecoveredRequest(cat, a.id, s.alerts[a.id], s.alerts[a.id].resolvedAt.value);
      var project := cat.For(s.alerts[a.id].source.kind).project;
      && (out == s.out || (Emitted(s.out, out, a.event, project, Recovered, req) && O.Next(s.out, out) && out.now == a.now && out.dir == s.out.dir))
      && (sent ==> HasRecovered(out, project, a.id))
    ensures Good(cat, System(a.now, out, if sent && a.saved then s.alerts[a.id := s.alerts[a.id].(recoveryNotifiedAt := Some(a.now))] else s.alerts))
  {
    var alert := s.alerts[a.id];
    var project, req := cat.For(alert.source.kind).project, RecoveredRequest(cat, a.id, alert, alert.resolvedAt.value);
    if out != s.out { RecoveryKeepsAlert(cat, s.out, out, a.event, a.id, alert); }
    var s' := System(a.now, out, if sent && a.saved then s.alerts[a.id := alert.(recoveryNotifiedAt := Some(a.now))] else s.alerts);
    MarkKeepsAlert(cat, out, a.id, alert, s'.alerts[a.id]);
    SendKeepsGood(cat, s, s', a.event, a.id, project, Recovered, req);
  }

  lemma ElsewhereKeepsGood(cat: Catalogue, s: System, a: Action)
    requires Good(cat, s) && Possible(cat, s, a) && a.Elsewhere?
    ensures Good(cat, Apply(cat, s, a))
  {
    StepMoves(s.out, a.out);
    KeysStayUnique(s.out, a.out);
    forall b | b in s.alerts ensures AlertOk(cat, a.out, b, s.alerts[b]) {
      if e :| Stored(s.out, a.out, e) {
        ForeignEventKeepsAlert(cat, s.out, a.out, e, b, s.alerts[b]);
      } else {
        SameTablesKeepAlert(cat, s.out, a.out, b, s.alerts[b]);
      }
    }
  }

  lemma StepKeepsGood(cat: Catalogue, s: System, a: Action)
    requires Good(cat, s) && Possible(cat, s, a)
    ensures Good(cat, Apply(cat, s, a))
  {
    match a
    case Raise(_, _, _, _, _, _) => RaiseKeepsGood(cat, s, a);
    case Announce(_, _, _, _, _) => AnnounceKeepsGood(cat, s, a);
    case Clear(_, _) => ClearKeepsGood(cat, s, a);
    case AnnounceRecovery(_, _, _, _, _) => AnnounceRecoveryKeepsGood(cat, s, a);
    case Elsewhere(_) => ElsewhereKeepsGood(cat, s, a);
  }

  lemma {:induction false} RunIsGood(run: Run, i: nat)
    requires run.Valid() && i < |run.states|
    ensures Good(run.cat, run.states[i])
  {
    if i > 0 {
      RunIsGood(run, i - 1);
      assert run.StepOk(i - 1);
      StepKeepsGood(run.cat, run.states[i - 1], run.actions[i - 1]);
    }
  }

  lemma ReachableIsGood(cat: Catalogue, s: System)
    requires Reachable(cat, s)
    ensures Good(cat, s)
  {
    var run :| EndsRun(run, cat, s);
    RunIsGood(run, |run.actions|);
  }

  lemma OneClock(cat: Catalogue, s: System)
    requires Reachable(cat, s)
    ensures s.out.now <= s.now && OneFiring(s.alerts)
  {
    ReachableIsGood(cat, s);
  }

  lemma AnnounceGives(cat: Catalogue, s: System, a: Action, alerts: map<AlertId, Alert>)
    requires Possible(cat, s, a) && a.Announce?
    requires var sent := E.EmitRequest(s.out, a.event, OpenedRequest(cat, a.id, s.alerts[a.id]), a.clock, a.now).1.Ok?;
      alerts == if sent && a.saved then s.alerts[a.id := s.alerts[a.id].(notifiedAt := Some(a.now))] else s.alerts
    ensures Apply(cat, s, a) ==
      System(a.now, E.EmitRequest(s.out, a.event, OpenedRequest(cat, a.id, s.alerts[a.id]), a.clock, a.now).0, alerts)
  {
  }

  lemma AnnounceRecoveryGives(cat: Catalogue, s: System, a: Action, alerts: map<AlertId, Alert>)
    requires Possible(cat, s, a) && a.AnnounceRecovery?
    requires var req := RecoveredRequest(cat, a.id, s.alerts[a.id], s.alerts[a.id].resolvedAt.value);
      var sent := E.EmitRequest(s.out, a.event, req, a.clock, a.now).1.Ok?;
      alerts == if sent && a.saved then s.alerts[a.id := s.alerts[a.id].(recoveryNotifiedAt := Some(a.now))] else s.alerts
    ensures var req := RecoveredRequest(cat, a.id, s.alerts[a.id], s.alerts[a.id].resolvedAt.value);
      Apply(cat, s, a) == System(a.now, E.EmitRequest(s.out, a.event, req, a.clock, a.now).0, alerts)
  {
  }

  lemma StepCarries(run: Run, longer: Run, i: nat)
    requires |run.states| == |run.actions| + 1 && |longer.states| == |longer.actions| + 1 && run.cat == longer.cat
    requires i < |run.actions| && i < |longer.actions| && run.StepOk(i)
    requires longer.states[i] == run.states[i] && longer.actions[i] == run.actions[i] && longer.states[i + 1] == run.states[i + 1]
    ensures longer.StepOk(i)
  {
  }

  lemma StepAppended(longer: Run, i: nat, s: System, a: Action)
    requires |longer.states| == |longer.actions| + 1 && i < |longer.actions| && Possible(longer.cat, s, a)
    requires longer.states[i] == s && longer.actions[i] == a && longer.states[i + 1] == Apply(longer.cat, s, a)
    ensures longer.StepOk(i)
  {
  }

  lemma LongerIsValid(run: Run, next: System, a: Action)
    requires run.Valid() && Run(run.cat, run.states + [next], run.actions + [a]).StepOk(|run.actions|)
    ensures Run(run.cat, run.states + [next], run.actions + [a]).Valid()
  {
    var longer := Run(run.cat, run.states + [next], run.actions + [a]);
    forall i | 0 <= i < |longer.actions|
      ensures longer.StepOk(i)
    {
      if i < |run.actions| { StepCarries(run, longer, i); }
    }
  }

  lemma TakeStep(cat: Catalogue, s: System, a: Action)
    requires Reachable(cat, s) && Possible(cat, s, a)
    ensures Reachable(cat, Apply(cat, s, a))
  {
    var run :| EndsRun(run, cat, s);
    TakeStepFrom(run, cat, s, a);
  }

  lemma TakeStepFrom(run: Run, cat: Catalogue, s: System, a: Action)
    requires run.Valid() && run.cat == cat && run.states[|run.actions|] == s && Possible(cat, s, a)
    ensures Reachable(cat, Apply(cat, s, a))
  {
    var next := Apply(cat, s, a);
    var longer := Run(cat, run.states + [next], run.actions + [a]);
    StepAppended(longer, |run.actions|, s, a);
    LongerIsValid(run, next, a);
    assert EndsRun(longer, cat, next);
  }

  // ---------------------------------------------------------------------------
  // The theorems

  /** A source has at most one open alert. */
  lemma OneOpenAlert(run: Run, i: nat, a: AlertId, b: AlertId)
    requires run.Valid() && i < |run.states| && a in run.states[i].alerts && b in run.states[i].alerts
    requires run.states[i].alerts[a].source == run.states[i].alerts[b].source
    requires run.states[i].alerts[a].status == run.states[i].alerts[b].status == Firing
    ensures a == b
  {
    RunIsGood(run, i);
  }

  /** Both events are of the same kind, and about the alert. */
  predicate SameReport(d: O.Event, e: O.Event, project: O.ProjectId, id: AlertId) {
    d.project == e.project == project && d.key == e.key == Some(id) && d.lifecycle == e.lifecycle
  }

  /** The events recorded for an alert are at most one opening, with its opening time, and at most one recovery,
      with its recovery time. */
  lemma AtMostOneOfEach(run: Run, i: nat, id: AlertId, d: EventId, e: EventId)
    requires run.Valid() && i < |run.states| && id in run.states[i].alerts
    requires d in run.states[i].out.events && e in run.states[i].out.events
    requires SameReport(run.states[i].out.events[d], run.states[i].out.events[e], run.cat.For(run.states[i].alerts[id].source.kind).project, id)
    ensures d == e
    ensures var alert := run.states[i].alerts[id]; var entry, event := run.cat.For(alert.source.kind), run.states[i].out.events[e];
      OpeningEvent(entry, event, id, alert) || RecoveryEvent(entry, event, id, alert)
  {
    RunIsGood(run, i);
    var out, project := run.states[i].out, run.cat.For(run.states[i].alerts[id].source.kind).project;
    assert AlertOk(run.cat, out, id, run.states[i].alerts[id]);
    assert Mentions(out.events[d], project, id) && Mentions(out.events[e], project, id);
    var key := out.events[d].idempotencyKey.value;
    assert O.RecordedUnder(out.events, project, key, d) && O.RecordedUnder(out.events, project, key, e);
  }

  /** The incident of an alert is open exactly while its opening has been recorded and its recovery has not; once
      both have been recorded it is resolved, even if both happened at the same instant. */
  lemma AlertAgreesWithIncident(run: Run, i: nat, id: AlertId)
    requires run.Valid() && i < |run.states| && id in run.states[i].alerts
    ensures var out, alert := run.states[i].out, run.states[i].alerts[id];
      var project := run.cat.For(alert.source.kind).project;
      var k := O.IncidentKey(project, id);
      && (O.IsOpen(out.incidents, k) <==> HasOpened(out, project, id) && !HasRecovered(out, project, id))
      && (k in out.incidents && out.incidents[k].status == Resolved <==> HasRecovered(out, project, id))
      && (alert.notifiedAt.Some? ==> HasOpened(out, project, id))
      && (alert.recoveryNotifiedAt.Some? ==> HasRecovered(out, project, id))
      && (HasRecovered(out, project, id) ==> alert.status == Cleared)
  {
    RunIsGood(run, i);
    var out, alert := run.states[i].out, run.states[i].alerts[id];
    assert AlertOk(run.cat, out, id, alert);
    if alert.status == Firing { NotRecovered(run.cat, out, id, alert); }
  }

  // ---------------------------------------------------------------------------
  // Never the reverse

  /** An alert stays in the table, and a cleared one stays cleared. */
  ghost predicate AlertEvolves(s: System, s': System, id: AlertId)
    requires id in s.alerts
  {
    && id in s'.alerts && s'.alerts[id].source == s.alerts[id].source
    && (s.alerts[id].status == Cleared ==> s'.alerts[id].status == Cleared)
  }

  lemma StepEvolves(cat: Catalogue, s: System, a: Action, id: AlertId)
    requires Possible(cat, s, a) && id in s.alerts
    ensures AlertEvolves(s, Apply(cat, s, a), id)
  {
  }

  lemma AnnounceOpensNoOther(cat: Catalogue, s: System, a: Action, project: O.ProjectId, id: AlertId)
    requires Good(cat, s) && Possible(cat, s, a) && a.Announce? && a.id != id
    ensures HasOpened(Apply(cat, s, a).out, project, id) <==> HasOpened(s.out, project, id)
  {
    var alert, out' := s.alerts[a.id], Apply(cat, s, a).out;
    KeysDiffer(a.id, id);
    SendMoves(s.out, a.event, OpenedRequest(cat, a.id, alert), a.clock, a.now, cat.For(alert.source.kind).project, Opened);
    if out' != s.out { RecordsKept(s.out, out', a.event, project, OpenedKey(id)); }
  }

  lemma RecoveryOpensNothing(cat: Catalogue, s: System, a: Action, project: O.ProjectId, id: AlertId)
    requires Good(cat, s) && Possible(cat, s, a) && a.AnnounceRecovery?
    ensures HasOpened(Apply(cat, s, a).out, project, id) <==> HasOpened(s.out, project, id)
  {
    var alert, out' := s.alerts[a.id], Apply(cat, s, a).out;
    KeysDiffer(id, a.id);
    SendMoves(s.out, a.event, RecoveredRequest(cat, a.id, alert, alert.resolvedAt.value), a.clock, a.now,
              cat.For(alert.source.kind).project, Recovered);
    if out' != s.out { RecordsKept(s.out, out', a.event, project, OpenedKey(id)); }
  }

  lemma ForeignOpensNothing(cat: Catalogue, s: System, a: Action, id: AlertId)
    requires Possible(cat, s, a) && a.Elsewhere? && id in s.alerts
    ensures var project := cat.For(s.alerts[id].source.kind).project;
      HasOpened(a.out, project, id) <==> HasOpened(s.out, project, id)
  {
    var project := cat.For(s.alerts[id].source.kind).project;
    StepMoves(s.out, a.out);
    if e :| Stored(s.out, a.out, e) {
      assert !Mentions(a.out.events[e], project, id);
      if a.out.events[e].project == project {
        RecordsKept(s.out, a.out, e, project, OpenedKey(id));
      } else {
        RecordsKeptElsewhere(s.out, a.out, e, project, OpenedKey(id));
      }
    }
  }

  lemma ClearedGetsNoOpening(cat: Catalogue, s: System, a: Action, id: AlertId)
    requires Good(cat, s) && Possible(cat, s, a) && id in s.alerts && s.alerts[id].status == Cleared
    ensures var project := cat.For(s.alerts[id].source.kind).project;
      HasOpened(Apply(cat, s, a).out, project, id) <==> HasOpened(s.out, project, id)
  {
    var project := cat.For(s.alerts[id].source.kind).project;
    match a {
      case Announce(_, _, _, _, _) => AnnounceOpensNoOther(cat, s, a, project, id);
      case AnnounceRecovery(_, _, _, _, _) => RecoveryOpensNothing(cat, s, a, project, id);
      case Elsewhere(_) => ForeignOpensNothing(cat, s, a, id);
      case _ =>
    }
  }

  /** Once an alert's recovery has been recorded, its opening never is: the opening comes first or not at all. */
  lemma {:induction false} NoOpeningAfterRecovery(run: Run, i: nat, j: nat, id: AlertId)
    requires run.Valid() && i <= j < |run.states| && id in run.states[i].alerts
    requires HasRecovered(run.states[i].out, run.cat.For(run.states[i].alerts[id].source.kind).project, id)
    ensures id in run.states[j].alerts && run.states[j].alerts[id].source == run.states[i].alerts[id].source
    ensures run.states[j].alerts[id].status == Cleared
    ensures var project := run.cat.For(run.states[i].alerts[id].source.kind).project;
      HasOpened(run.states[j].out, project, id) <==> HasOpened(run.states[i].out, project, id)
    decreases j
  {
    if i == j {
      AlertAgreesWithIncident(run, i, id);
    } else {
      NoOpeningAfterRecovery(run, i, j - 1, id);
      RunIsGood(run, j - 1);
      assert run.StepOk(j - 1);
      StepEvolves(run.cat, run.states[j - 1], run.actions[j - 1], id);
      ClearedGetsNoOpening(run.cat, run.states[j - 1], run.actions[j - 1], id);
    }
  }
}
