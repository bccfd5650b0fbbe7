/** Every incident is the fold of the reports recorded for its key (apps/server/src/notification-service.ts). */
module OutboxIncidents {
  import opened Wrappers
  import opened Incidents
  import opened Outbox
  import opened OutboxSteps
  import opened OutboxRuns

  // ---------------------------------------------------------------------------
  // One action, seen from events and incidents

  /** Exactly one new event was stored, and its report absorbed by its incident. */
  ghost predicate Stored(s: State, s': State, e: EventId) {
    && e !in s.events && e in s'.events && EmitTables(s, s', e, s'.events[e])
    && (s'.events[e].lifecycle != Plain ==> s'.events[e].key.Some?)
  }

  ghost predicate Moved(s: State, s': State) {
    && s.now <= s'.now
    && ((s'.events == s.events && s'.incidents == s.incidents) || exists e :: Stored(s, s', e))
  }

  lemma EmitMoves(s: State, id: EventId, event: Event, target: Option<UserId>, now: int)
    requires Emittable(s, id, event, now)
    ensures Stored(s, Emit(s, id, event, target, now), id)
    ensures var s' := Emit(s, id, event, target, now); s'.now == now && s'.dir == s.dir && s'.events[id] == event
  {
  }

  lemma QuietActionMoves(s: State, a: Action)
    requires Enabled(s, a) && !a.EmitEvent?
    ensures var s' := Apply(s, a); s.now <= s'.now && s'.events == s.events && s'.incidents == s.incidents
  {
  }

  lemma StepMoves(s: State, s': State)
    requires Next(s, s')
    ensures Moved(s, s')
  {
    var a: Action :| Enabled(s, a) && s' == Apply(s, a);
    if a.EmitEvent? {
      EmitMoves(s, a.id, a.event, a.target, a.now);
    } else {
      QuietActionMoves(s, a);
    }
  }

  // ---------------------------------------------------------------------------
  // Incidents are folds

  /** The event is an opening or a recovery of this incident. */
  predicate ReportsOn(event: Event, k: IncidentKey) {
    event.lifecycle != Plain && event.project == k.project && event.key == Some(k.key)
  }

  /** These are the reports recorded for the incident: each event of its key once, with its kind and the instant at
      which it occurred. */
  ghost predicate ReportsOf(s: State, k: IncidentKey, reports: seq<Report>) {
    && (forall r :: r in reports ==>
          r.event in s.events && ReportsOn(s.events[r.event], k)
          && r.lifecycle == s.events[r.event].lifecycle && r.at == s.events[r.event].occurredAt)
    && (forall e :: e in s.events && ReportsOn(s.events[e], k) ==> Report(s.events[e].lifecycle, e, s.events[e].occurredAt) in reports)
    && (forall i, j :: 0 <= i < j < |reports| ==> reports[i].event != reports[j].event)
  }

  ghost predicate IsFold(s: State, k: IncidentKey, reports: seq<Report>) {
    ReportsOf(s, k, reports) && Lifecycles(reports) && Lookup(s.incidents, k) == Replay(reports)
  }

  lemma FoldGrows(s: State, s': State, e: EventId, k: IncidentKey, reports: seq<Report>)
    requires Stored(s, s', e) && ReportsOn(s'.events[e], k) && IsFold(s, k, reports)
    ensures IsFold(s', k, reports + [Report(s'.events[e].lifecycle, e, s'.events[e].occurredAt)])
  {
    var r := Report(s'.events[e].lifecycle, e, s'.events[e].occurredAt);
    var longer := reports + [r];
    assert longer[..|longer| - 1] == reports && longer[|longer| - 1] == r;
    AbsorbKeepsRow(Replay(reports), r);
    assert Lookup(s'.incidents, k) == Replay(longer);
    assert longer[|reports|] in longer;
    forall e0 | e0 in s'.events && ReportsOn(s'.events[e0], k)
      ensures Report(s'.events[e0].lifecycle, e0, s'.events[e0].occurredAt) in longer
    {
      if e0 != e {
        var r0 := Report(s.events[e0].lifecycle, e0, s.events[e0].occurredAt);
        assert r0 in reports;
        var i :| 0 <= i < |reports| && reports[i] == r0;
        assert longer[i] == r0;
      }
    }
  }

  lemma AbsorbKeepsRow(current: Option<Incident>, r: Report)
    requires r.lifecycle != Plain
    ensures Absorb(current, r.lifecycle, r.event, r.at).row.Some?
  {
  }

  lemma FoldStays(s: State, s': State, k: IncidentKey, reports: seq<Report>)
    requires IsFold(s, k, reports)
    requires (s'.events == s.events && s'.incidents == s.incidents) || exists e :: Stored(s, s', e) && !ReportsOn(s'.events[e], k)
    ensures IsFold(s', k, reports)
  {
    if !(s'.events == s.events && s'.incidents == s.incidents) {
      var e :| Stored(s, s', e) && !ReportsOn(s'.events[e], k);
      assert Lookup(s'.incidents, k) == Lookup(s.incidents, k);
    }
  }

  /** In every reachable state each incident is the fold, in the order of recording, of exactly the openings and
      recoveries recorded for its project and dedupe key. */
  lemma {:induction false} IncidentIsFold(run: seq<State>, i: nat, k: IncidentKey) returns (reports: seq<Report>)
    requires IsRun(run) && i < |run|
    ensures IsFold(run[i], k, reports)
  {
    if i == 0 {
      reports := [];
    } else {
      reports := IncidentIsFold(run, i - 1, k);
      assert Next(run[i - 1], run[i]);
      reports := FoldStep(run[i - 1], run[i], k, reports);
    }
  }

  lemma FoldStep(s: State, s': State, k: IncidentKey, reports: seq<Report>) returns (after: seq<Report>)
    requires Next(s, s') && IsFold(s, k, reports)
    ensures IsFold(s', k, after)
  {
    StepMoves(s, s');
    after := reports;
    if s'.events == s.events && s'.incidents == s.incidents {
      FoldStays(s, s', k, reports);
    } else {
      var e :| Stored(s, s', e);
      if ReportsOn(s'.events[e], k) {
        FoldGrows(s, s', e, k, reports);
        after := reports + [Report(s'.events[e].lifecycle, e, s'.events[e].occurredAt)];
      } else {
        FoldStays(s, s', k, reports);
      }
    }
  }

  /** The event is the latest report on its incident: later instants win, and at one instant a recovery wins. */
  ghost predicate LatestReport(s: State, k: IncidentKey, e: EventId) {
    && e in s.events && ReportsOn(s.events[e], k)
    && forall d :: d in s.events && ReportsOn(s.events[d], k) ==>
         s.events[d].occurredAt < s.events[e].occurredAt
         || (s.events[d].occurredAt == s.events[e].occurredAt && (s.events[d].lifecycle == Recovered ==> s.events[e].lifecycle == Recovered))
  }

  /** An incident is open exactly when its latest recorded report is an opening, whatever order the reports arrived
      in. */
  lemma OpenIffLatestIsOpening(run: seq<State>, i: nat, k: IncidentKey)
    requires IsRun(run) && i < |run|
    ensures k in run[i].incidents && run[i].incidents[k].status == Open
      <==> exists e :: LatestReport(run[i], k, e) && run[i].events[e].lifecycle == Opened
    ensures k in run[i].incidents <==> exists e :: e in run[i].events && ReportsOn(run[i].events[e], k)
  {
    var s := run[i];
    var reports := IncidentIsFold(run, i, k);
    if reports == [] {
      assert forall e :: e in s.events ==> !ReportsOn(s.events[e], k);
    } else {
      var latest := LatestOf(reports);
      ReplayShowsLatest(reports, latest);
      assert LatestReport(s, k, latest.event) by {
        forall d | d in s.events && ReportsOn(s.events[d], k)
          ensures NoLaterThan(Report(s.events[d].lifecycle, d, s.events[d].occurredAt), latest)
        {
          assert Report(s.events[d].lifecycle, d, s.events[d].occurredAt) in reports;
        }
      }
      if e :| LatestReport(s, k, e) && s.events[e].lifecycle == Opened {
        assert ReportsOn(s.events[latest.event], k);
        assert Report(s.events[e].lifecycle, e, s.events[e].occurredAt) in reports;
      }
    }
  }

  /** A recorded opening or recovery is delivered - it creates rows - exactly when it is then the latest report on its
      incident and, being a recovery, ends an outage or is the first report. */
  lemma ReportNotifiesIff(run: seq<State>, i: nat, id: EventId, event: Event)
    requires IsRun(run) && i < |run| && id !in run[i].events && event.lifecycle != Plain && event.key.Some?
    ensures var s, k := run[i], IncidentKey(event.project, event.key.value);
      UpdateIncident(s.incidents, id, event).1 <==>
        && LatestReport(s.(events := s.events[id := event]), k, id)
        && (event.lifecycle == Recovered ==> k !in s.incidents || s.incidents[k].status == Open)
  {
    var s, k := run[i], IncidentKey(event.project, event.key.value);
    var reports := IncidentIsFold(run, i, k);
    var r := Report(event.lifecycle, id, event.occurredAt);
    var events := s.events[id := event];
    NotifiesIff(reports, r);
    OpenIffLatestIsOpening(run, i, k);
    if forall q :: q in reports ==> NoLaterThan(q, r) {
      forall d | d in events && ReportsOn(events[d], k)
        ensures NoLaterThan(Report(events[d].lifecycle, d, events[d].occurredAt), r)
      {
        assert d != id ==> Report(s.events[d].lifecycle, d, s.events[d].occurredAt) in reports;
      }
      assert LatestReport(s.(events := events), k, id);
    }
    if LatestReport(s.(events := events), k, id) {
      forall q | q in reports ensures NoLaterThan(q, r) { assert ReportsOn(events[q.event], k); }
    }
    if reports != [] {
      var latest := LatestOf(reports);
      ReplayShowsLatest(reports, latest);
      forall q | IsLatest(q, reports) ensures q.lifecycle == latest.lifecycle {
        assert NoLaterThan(q, latest) && NoLaterThan(latest, q);
      }
    }
  }
}
