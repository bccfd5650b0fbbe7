/** The incident of one dedupe key: how opened and recovered reports, arriving in any
    order, fold into it (updateIncident in apps/server/src/notification-service.ts). */
module Incidents {
  import opened Wrappers

  type EventId = nat

  /** `Plain` is the source's "event": a report with no outage behind it. */
  datatype Lifecycle = Plain | Opened | Recovered

  datatype IncidentStatus = Open | Resolved

  datatype Incident = Incident(
    status: IncidentStatus,
    openedEvent: EventId,
    resolvedEvent: Option<EventId>,
    openedAt: int,
    lastOpenedAt: Option<int>,
    resolvedAt: Option<int>)
  {
    function LastOpened(): int {
      match lastOpenedAt case Some(at) => at case None => openedAt
    }

    function Closing(): int {
      match resolvedAt case Some(at) => at case None => openedAt
    }
  }

  /** A row after an INSERT .. ON CONFLICT DO UPDATE .. WHERE, and whether it changed. */
  datatype Upsert = Upsert(row: Option<Incident>, changed: bool)

  function UpsertOpened(current: Option<Incident>, event: EventId, at: int): Upsert {
    match current
    case None => Upsert(Some(Incident(Open, event, None, at, Some(at), None)), true)
    case Some(i) =>
      if i.status == Resolved && at > i.Closing() then
        Upsert(Some(Incident(Open, event, None, at, Some(at), None)), true)
      else
        Upsert(current, false)
  }

  function UpsertResolved(current: Option<Incident>, event: EventId, at: int): Upsert {
    match current
    case None => Upsert(Some(Incident(Resolved, event, Some(event), at, Some(at), Some(at))), true)
    case Some(i) =>
      if at >= i.LastOpened() && (i.resolvedAt.None? || at > i.resolvedAt.value) then
        Upsert(Some(i.(status := Resolved, resolvedEvent := Some(event), resolvedAt := Some(at))), true)
      else
        Upsert(current, false)
  }

  /** The incident after one opened or recovered report, and whether the report may notify anybody. */
  function Absorb(current: Option<Incident>, lifecycle: Lifecycle, event: EventId, at: int): Upsert
    requires lifecycle != Plain
  {
    if lifecycle == Opened then
      if current.Some? && current.value.status == Open then
        if at < current.value.LastOpened() then Upsert(current, false)
        else Upsert(Some(current.value.(openedEvent := event, lastOpenedAt := Some(at))), true)
      else if current.Some? && at <= current.value.Closing() then Upsert(current, false)
      else UpsertOpened(current, event, at)
    else
      if current.Some? && current.value.status == Resolved then
        Upsert(
          if at > current.value.Closing()
          then Some(current.value.(resolvedEvent := Some(event), resolvedAt := Some(at)))
          else current,
          false)
      else if current.Some? && at < current.value.LastOpened() then Upsert(current, false)
      else UpsertResolved(current, event, at)
  }

  /** What every stored incident satisfies: opened_at <= last_opened_at <= resolved_at. */
  ghost predicate WellFormed(current: Option<Incident>) {
    current.Some? ==>
      var i := current.value;
      && i.lastOpenedAt.Some? && i.openedAt <= i.LastOpened()
      && (i.status == Open <==> i.resolvedAt.None?)
      && (i.resolvedAt.Some? ==> i.LastOpened() <= i.resolvedAt.value)
  }

  /** The latest instant the incident has heard of. */
  function Watermark(i: Incident): int {
    if i.status == Open then i.LastOpened() else i.Closing()
  }

  /** One report always keeps the timestamps ordered and never moves the watermark back; a report that
      may notify sets the status to its own kind and the watermark to its own instant. */
  lemma AbsorbKeepsOrder(current: Option<Incident>, lifecycle: Lifecycle, event: EventId, at: int)
    requires WellFormed(current) && lifecycle != Plain
    ensures var after := Absorb(current, lifecycle, event, at);
      && after.row.Some? && WellFormed(after.row)
      && (current.Some? ==> Watermark(current.value) <= Watermark(after.row.value))
      && at <= Watermark(after.row.value)
      && (after.changed ==>
           && Watermark(after.row.value) == at
           && after.row.value.status == (if lifecycle == Opened then Open else Resolved))
      && (!after.changed ==> current.Some? && after.row.value.status == current.value.status)
  {
  }

  // ---------------------------------------------------------------------------
  // Convergence

  datatype Report = Report(lifecycle: Lifecycle, event: EventId, at: int)

  ghost predicate Lifecycles(reports: seq<Report>) {
    forall r :: r in reports ==> r.lifecycle != Plain
  }

  /** The incident after a whole sequence of reports on a fresh key. */
  function Replay(reports: seq<Report>): Option<Incident>
    requires forall r :: r in reports ==> r.lifecycle != Plain
  {
    if reports == [] then None
    else
      var last := reports[|reports| - 1];
      Absorb(Replay(reports[..|reports| - 1]), last.lifecycle, last.event, last.at).row
  }

  /** The reference reading of a set of reports: later instants win, and at one instant a recovery wins. */
  predicate NoLaterThan(a: Report, b: Report) {
    a.at < b.at || (a.at == b.at && (a.lifecycle == Recovered ==> b.lifecycle == Recovered))
  }

  ghost predicate IsLatest(r: Report, reports: seq<Report>) {
    r in reports && forall q :: q in reports ==> NoLaterThan(q, r)
  }

  ghost predicate Shows(current: Option<Incident>, r: Report) {
    && current.Some?
    && Watermark(current.value) == r.at
    && current.value.status == (if r.lifecycle == Opened then Open else Resolved)
  }

  /** The fold shows the status and instant of the latest report, whatever the order of arrival. */
  lemma {:induction false} ReplayShowsLatest(reports: seq<Report>, r: Report)
    requires Lifecycles(reports) && IsLatest(r, reports)
    ensures WellFormed(Replay(reports)) && Shows(Replay(reports), r)
  {
    var rest, last := reports[..|reports| - 1], reports[|reports| - 1];
    assert reports == rest + [last];
    if rest != [] {
      var s := LatestOf(rest);
      ReplayShowsLatest(rest, s);
      AbsorbKeepsOrder(Replay(rest), last.lifecycle, last.event, last.at);
      assert NoLaterThan(s, r) && NoLaterThan(last, r);
      assert r == last || NoLaterThan(r, s);
    } else {
      assert r == last;
    }
  }

  lemma {:induction false} LatestOf(reports: seq<Report>) returns (r: Report)
    requires reports != [] && Lifecycles(reports)
    ensures IsLatest(r, reports)
  {
    var rest, last := reports[..|reports| - 1], reports[|reports| - 1];
    assert reports == rest + [last];
    if rest == [] {
      r := last;
    } else {
      r := LatestOf(rest);
      if !NoLaterThan(last, r) { r := last; }
    }
  }

  /** What a report says, without the id of the event that carried it. */
  ghost function Facts(reports: seq<Report>): (facts: set<(Lifecycle, int)>)
    ensures facts == {} <==> reports == []
  {
    var facts := set r | r in reports :: (r.lifecycle, r.at);
    assert reports != [] ==> (reports[0].lifecycle, reports[0].at) in facts;
    facts
  }

  /** Any permutation and any duplication of the same reports ends in the same status and watermark. */
  lemma Converges(left: seq<Report>, right: seq<Report>)
    requires Lifecycles(left) && Lifecycles(right) && Facts(left) == Facts(right)
    ensures Replay(left).Some? <==> Replay(right).Some?
    ensures Replay(left).Some? ==>
      && Replay(left).value.status == Replay(right).value.status
      && Watermark(Replay(left).value) == Watermark(Replay(right).value)
  {
    if left != [] && right != [] {
      var l := LatestOf(left);
      var r := LatestOf(right);
      ReplayShowsLatest(left, l);
      ReplayShowsLatest(right, r);
      assert (l.lifecycle, l.at) in Facts(right);
      assert (r.lifecycle, r.at) in Facts(left);
      var l' :| l' in right && (l'.lifecycle, l'.at) == (l.lifecycle, l.at);
      var r' :| r' in left && (r'.lifecycle, r'.at) == (r.lifecycle, r.at);
      assert NoLaterThan(l', r) && NoLaterThan(r', l);
    }
  }

  /** A report may notify exactly when it is the latest so far - later instants win, and at one instant a recovery
      wins - and, being a recovery, either ends an outage or is the first report of all. */
  lemma NotifiesIff(reports: seq<Report>, r: Report)
    requires Lifecycles(reports) && r.lifecycle != Plain
    ensures Absorb(Replay(reports), r.lifecycle, r.event, r.at).changed <==>
      && (forall q :: q in reports ==> NoLaterThan(q, r))
      && (r.lifecycle == Recovered ==> reports == [] || exists q :: IsLatest(q, reports) && q.lifecycle == Opened)
  {
    if reports != [] {
      var latest := LatestOf(reports);
      ReplayShowsLatest(reports, latest);
      assert (forall q :: q in reports ==> NoLaterThan(q, r)) <==> NoLaterThan(latest, r);
      forall q | IsLatest(q, reports) ensures q.lifecycle == latest.lifecycle {
        assert NoLaterThan(q, latest) && NoLaterThan(latest, q);
      }
    }
  }

  /** What an accepted report writes: an opening names itself and its instant, and starts a new outage unless one is
      going on; a recovery closes the outage under its own name and instant. */
  lemma AcceptedReportWrites(current: Option<Incident>, lifecycle: Lifecycle, event: EventId, at: int)
    requires WellFormed(current) && lifecycle != Plain && Absorb(current, lifecycle, event, at).changed
    ensures Absorb(current, lifecycle, event, at).row.Some?
    ensures var row := Absorb(current, lifecycle, event, at).row.value;
      var running := current.Some? && current.value.status == Open;
      if lifecycle == Opened then
        && row.status == Open && row.openedEvent == event && row.lastOpenedAt == Some(at) && row.resolvedAt == None
        && row.openedAt == (if running then current.value.openedAt else at)
      else
        && row.status == Resolved && row.resolvedEvent == Some(event) && row.resolvedAt == Some(at)
        && row.openedEvent == (if running then current.value.openedEvent else event)
        && row.openedAt == (if running then current.value.openedAt else at)
        && row.lastOpenedAt == (if running then current.value.lastOpenedAt else Some(at))
  {
  }

  /** What a report that may not notify writes: nothing, but that a later recovery of a resolved incident moves its
      closing on. */
  lemma SilentReportWrites(current: Option<Incident>, lifecycle: Lifecycle, event: EventId, at: int)
    requires WellFormed(current) && lifecycle != Plain && !Absorb(current, lifecycle, event, at).changed
    ensures current.Some?
    ensures Absorb(current, lifecycle, event, at).row == Some(
      if lifecycle == Recovered && current.value.status == Resolved && current.value.resolvedAt.value < at
      then current.value.(resolvedEvent := Some(event), resolvedAt := Some(at)) else current.value)
  {
  }

  /** opened_at is not part of what converges: it depends on the order of arrival. */
  lemma OpenedAtDependsOnOrder()
    ensures var early, late := Report(Opened, 0, 1), Report(Opened, 1, 2);
      && Facts([early, late]) == Facts([late, early])
      && Replay([early, late]).Some? && Replay([late, early]).Some?
      && Replay([early, late]).value.openedAt != Replay([late, early]).value.openedAt
  {
    var early, late := Report(Opened, 0, 1), Report(Opened, 1, 2);
    assert Replay([early]) == Some(Incident(Open, 0, None, 1, Some(1), None));
    assert Replay([late]) == Some(Incident(Open, 1, None, 2, Some(2), None));
    assert [early, late][..1] == [early] && [late, early][..1] == [late];
    assert [early][..0] == [] && [late][..0] == [];
    assert Facts([early, late]) == {(Opened, 1), (Opened, 2)} == Facts([late, early]) by {
      assert [early, late][0] == early && [early, late][1] == late;
      assert [late, early][0] == late && [late, early][1] == early;
    }
  }
}
