/** What the three recovery_summary_modes do with openings, and where the code departs from the documentation
    (apps/server/src/notification-service.ts; docs/notifications.md, delivery model). */
module OutboxModes {
  import opened Wrappers
  import opened Incidents
  import opened QuietHours
  import opened Outbox
  import opened OutboxSteps
  import opened OutboxRuns

  /** Row r is a queued opening of the incident that `event` recovers. */
  predicate QueuedOpening(s: State, r: RowKey, event: Event) {
    && r in s.rows && s.rows[r].status == Pending && r.sub in s.dir.subs && r.event in s.events
    && s.events[r.event].lifecycle == Opened && s.events[r.event].project == event.project && s.events[r.event].key == event.key
  }

  /** The recovery goes to the same subscription and channel as the row. */
  predicate Follows(s: State, r: RowKey, event: Event, target: Option<UserId>)
    requires r in s.rows && r.sub in s.dir.subs
  {
    var sub := s.dir.subs[r.sub];
    Matches(s.dir, sub, event, target) && r.channel in NormalizeChannels(sub.channels) && s.rows[r].user == sub.user
  }

  /** An accepted recovery drops a queued opening exactly where the mode is `merged` and the recovery itself goes
      to the same subscription and channel; under the other modes the opening stays as it is. */
  lemma RecoveryDropsQueuedIff(s: State, id: EventId, event: Event, target: Option<UserId>, now: int, r: RowKey)
    requires QueuedOpening(s, r, event) && event.lifecycle == Recovered && event.key.Some?
    requires id !in s.events && RowsOk(s) && UpdateIncident(s.incidents, id, event).1
    ensures var after := Emit(s, id, event, target, now).rows;
      && r in after && after[r].status == (if s.dir.subs[r.sub].recovery == Merged && Follows(s, r, event, target) then Superseded else Pending)
      && (s.dir.subs[r.sub].recovery != Merged ==> after[r] == s.rows[r])
  {
    assert RowOk(s, r);
    assert r !in FanOut(s.dir, id, event, target);
  }

  /** Under `all` no sweep drops a queued opening because its outage is over, under the others every one does. */
  lemma SweepDropsQueuedIff(s: State, now: int, r: RowKey)
    requires r in s.rows && s.rows[r].status == Pending && r.sub in s.dir.subs && r.event in s.events
    requires s.events[r.event].lifecycle == Opened
    ensures SweepResolved(s, now).rows[r].status == Superseded
      <==> s.dir.subs[r.sub].recovery != All && !OpenSince(s.incidents, s.events[r.event])
  {
  }

  /** Under `recovery_only` an opening is suppressed from the start. */
  lemma RecoveryOnlySuppresses(s: State, id: EventId, event: Event, target: Option<UserId>, now: int, r: RowKey)
    requires event.lifecycle == Opened && UpdateIncident(s.incidents, id, event).1 && id !in s.events && RowsOk(s)
    requires r in FanOut(s.dir, id, event, target) && s.dir.subs[r.sub].recovery == RecoveryOnly
    ensures Emit(s, id, event, target, now).rows[r].status == Suppressed
  {
  }

  /** A sent opening is recorded delivered exactly when its outage is still the current one - under every mode,
      `all` included, although that mode is documented to preserve openings. */
  lemma SentOpeningIsKeptIff(run: seq<State>, i: nat, claim: Claim, now: int)
    requires IsRun(run) && i < |run| && claim in run[i].held && Holds(run[i].rows, claim)
    requires claim.event.lifecycle == Opened && claim.event.key.Some?
    ensures claim.row in Finished(run[i], claim, now, true).rows
    ensures Finished(run[i], claim, now, true).rows[claim.row].status
         == if InCurrentOutage(run[i], claim.row.event) then Delivered else Superseded
  {
    RunKeepsInv(run, i);
    HeldClaimAgrees(run[i], claim);
    assert RowOk(run[i], claim.row);
    TimestampTestIsGenerationTest(run, i, claim.row.event);
  }

  // ---------------------------------------------------------------------------
  // A run that loses a sent opening under `all`

  const SUB: Subscription := Subscription(0, None, None, 1, None, ["in_app"], Once, 60, 1, None, None, All, true)
  const DIR: Directory := Directory(map[0 := User(true, false, false, 0)], map[0 := true], map[], {}, map[0 := SUB])
  const INCIDENT: IncidentKey := IncidentKey(0, 0)

  function Report(lifecycle: Lifecycle, at: int): Event {
    Event(0, 0, lifecycle, Some(0), at, at, 3, "t", "b", "{}", None, None)
  }

  function RowOf(event: EventId): RowKey {
    RowKey(event, 0, InApp, 0)
  }

  function NewAt(at: int): Row {
    Row(0, Pending, 0, at, None, None, at)
  }

  const CLAIM: Claim := Claim(RowOf(0), 1 + LEASE_MS, 1, Report(Opened, 0), SUB, 3, 0)
  const OPEN: Incident := Incident(Open, 0, None, 0, Some(0), None)
  const RESOLVED: Incident := Incident(Resolved, 0, Some(1), 0, Some(0), Some(1))

  function Moment(i: nat): State {
    if i == 0 then State(0, DIR, map[], map[], map[], {}, [], map[], map[])
    else if i == 1 then
      State(0, DIR, map[0 := Report(Opened, 0)], map[INCIDENT := OPEN], map[RowOf(0) := NewAt(0)], {}, [], map[INCIDENT := 1], map[0 := 1])
    else
      State(1, DIR, map[0 := Report(Opened, 0), 1 := Report(Recovered, 1)], map[INCIDENT := RESOLVED], LateRows(i),
            if i == 3 then {CLAIM} else {}, if i == 2 then [] else [CLAIM], map[INCIDENT := 1], map[0 := 1])
  }

  function LateRows(i: nat): map<RowKey, Row> {
    var first := NewAt(0);
    map[RowOf(0) := if i == 2 then first
                    else if i == 3 then first.(status := Processing, attempts := 1, leaseUntil := Some(1 + LEASE_MS))
                    else first.(status := Superseded, attempts := 1),
        RowOf(1) := NewAt(1)]
  }

  lemma OneRow(id: EventId, lifecycle: Lifecycle, at: int)
    ensures FanOut(DIR, id, Report(lifecycle, at), None) == {RowOf(id)}
  {
  }

  lemma OpeningStep()
    ensures Next(Moment(0), Moment(1))
  {
    var event := Report(Opened, 0);
    OneRow(0, Opened, 0);
    EmitIsStep(Moment(0), 0, event, None, 0);
    var after := Emit(Moment(0), 0, event, None, 0);
    assert after.rows == map[RowOf(0) := NewAt(0)];
    assert after == Moment(1);
  }

  lemma RecoveryStep()
    ensures Next(Moment(1), Moment(2))
  {
    var event := Report(Recovered, 1);
    OneRow(1, Recovered, 1);
    EmitIsStep(Moment(1), 1, event, None, 1);
    var after := Emit(Moment(1), 1, event, None, 1);
    assert after.incidents == map[INCIDENT := RESOLVED];
    assert after.rows == LateRows(2);
    assert after == Moment(2);
  }

  lemma ClaimStep()
    ensures Next(Moment(2), Moment(3)) && CLAIM in Moment(3).held
  {
    var s, a := Moment(2), ClaimRow(RowOf(0), 1, 1);
    assert Claimable(s, RowOf(0), 1) && FirstClaimable(s, RowOf(0), 1);
    assert Enabled(s, a);
    assert TakeClaim(s, RowOf(0), 1, 1) == Moment(3);
    assert Apply(s, a) == Moment(3);
  }

  lemma FinishStep()
    ensures Next(Moment(3), Moment(4)) && Moment(4) == Finished(Moment(3), CLAIM, 1, true)
  {
    var s, a := Moment(3), FinishClaim(CLAIM, 1, true);
    assert s.held - {CLAIM} == {};
    assert FinishRows(s.incidents, s.rows, CLAIM, 1, true) == LateRows(4);
    assert Enabled(s, a) && Apply(s, a) == Moment(4);
  }

  /** Opening, recovery, and then the worker sends the queued opening: the provider takes it, and it ends
      superseded although its subscription is in mode `all`. */
  lemma AllModeLosesSentOpening() returns (run: seq<State>)
    ensures IsRun(run) && |run| == 5
    ensures CLAIM in run[3].held && CLAIM.sub.recovery == All && run[4] == Finished(run[3], CLAIM, 1, true)
    ensures CLAIM.row in run[4].rows && run[4].rows[CLAIM.row].status == Superseded
  {
    run := [Moment(0), Moment(1), Moment(2), Moment(3), Moment(4)];
    OpeningStep();
    RecoveryStep();
    ClaimStep();
    FinishStep();
  }
}
