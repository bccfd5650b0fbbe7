/** What one action can do: the life cycle of a delivery row, and the invariants every action keeps. */
module OutboxSteps {
  import opened Wrappers
  import opened Incidents
  import opened QuietHours
  import opened Outbox

  // ---------------------------------------------------------------------------
  // The life cycle of one row

  /** No status but pending and processing ever changes again. */
  predicate Live(row: Row) {
    row.status == Pending || row.status == Processing
  }

  ghost predicate Dropped(s: State, s': State, r: RowKey)
    requires r in s.rows && r in s'.rows
  {
    Live(s.rows[r]) && s'.rows[r] == Drop(s.rows[r])
  }

  ghost predicate Claimed(s: State, s': State, r: RowKey)
    requires r in s.rows && r in s'.rows
  {
    var row := s.rows[r];
    && Live(row) && row.nextAttemptAt <= s'.now
    && (row.leaseUntil.Some? ==> row.leaseUntil.value < s'.now)
    && s'.rows[r] == row.(status := Processing, attempts := row.attempts + 1, leaseUntil := Some(s'.now + LEASE_MS))
    && |s'.issued| == |s.issued| + 1 && s'.issued[|s.issued|].row == r
    && s'.issued[|s.issued|].lease == s'.now + LEASE_MS
  }

  /** Ends the attempt of the one worker whose lease value is on the row. */
  ghost predicate Held(s: State, r: RowKey)
    requires r in s.rows
  {
    s.rows[r].status == Processing && exists c :: c in s.held && c.row == r && Holds(s.rows, c)
  }

  ghost predicate Completed(s: State, s': State, r: RowKey)
    requires r in s.rows && r in s'.rows
  {
    && Held(s, r) && s'.rows[r] == MarkDelivered(s.rows[r], s'.now)
    && (r.event in s.events && s.events[r.event].lifecycle == Opened ==> OpenSince(s.incidents, s.events[r.event]))
  }

  ghost predicate GivenUp(s: State, s': State, r: RowKey)
    requires r in s.rows && r in s'.rows
  {
    Held(s, r) && s'.rows[r] == s.rows[r].(status := Failed, leaseUntil := None)
  }

  ghost predicate Retried(s: State, s': State, r: RowKey)
    requires r in s.rows && r in s'.rows
  {
    && Held(s, r) && s.now + 60_000 <= s'.rows[r].nextAttemptAt
    && s'.rows[r] == s.rows[r].(status := Pending, leaseUntil := None, nextAttemptAt := s'.rows[r].nextAttemptAt)
  }

  ghost predicate RowMove(s: State, s': State, r: RowKey)
    requires r in s.rows && r in s'.rows
  {
    || s'.rows[r] == s.rows[r]
    || Dropped(s, s', r) || Claimed(s, s', r) || Completed(s, s', r) || GivenUp(s, s', r) || Retried(s, s', r)
  }

  /** A new row is either the first of its chain, created with its event, or follows a row this very
      action delivered. */
  ghost predicate FirstOfChain(s: State, s': State, r: RowKey)
    requires r !in s.rows && r in s'.rows
  {
    && r.index == 0 && r.event !in s.events && r.event in s'.events
    && (s'.events[r.event].lifecycle != Plain ==> s'.events[r.event].key.Some?)
    && (s'.events[r.event].lifecycle == Opened ==> r.event in s'.outage)
    && r.sub in s'.dir.subs && s'.dir.subs[r.sub].user in s'.dir.users
    && s'.rows[r] == NewRow(s'.incidents, s'.events, s.rows, s'.dir, r.sub, r.channel, s'.events[r.event], s'.now)
  }

  ghost predicate Repeated(s: State, s': State, r: RowKey)
    requires r !in s.rows && r in s'.rows
  {
    exists c :: c in s.held && NextInChain(c.row) == r
      && c.row in s.rows && c.row in s'.rows && Completed(s, s', c.row)
      && Repeating(s.incidents, c) && s'.rows[r] == RepeatRow(s.rows[c.row].user, c, s'.now)
  }

  ghost predicate RowBorn(s: State, s': State, r: RowKey)
    requires r !in s.rows && r in s'.rows
  {
    FirstOfChain(s, s', r) || Repeated(s, s', r)
  }

  ghost predicate RowsEvolve(s: State, s': State) {
    && s.now <= s'.now
    && s.rows.Keys <= s'.rows.Keys
    && (forall r :: r in s.rows ==> RowMove(s, s', r))
    && (forall r :: r in s'.rows && r !in s.rows ==> RowBorn(s, s', r))
  }

  /** Claims are history: only ever added, one at a time, to the row they take. */
  ghost predicate ClaimsEvolve(s: State, s': State) {
    && |s.issued| <= |s'.issued| <= |s.issued| + 1
    && (forall i :: 0 <= i < |s.issued| ==> s'.issued[i] == s.issued[i])
    && (forall c :: c in s'.held ==> c in s.held || (|s'.issued| == |s.issued| + 1 && c == s'.issued[|s.issued|]))
    && (|s'.issued| == |s.issued| + 1 ==>
          var c := s'.issued[|s.issued|];
          && c in s'.held
          && c.row in s.rows && c.row in s'.rows && Claimed(s, s', c.row)
          && c.row.event in s.events && c.event == s.events[c.row.event]
          && c.row.sub in s.dir.subs && c.sub == s.dir.subs[c.row.sub])
  }

  // ---------------------------------------------------------------------------
  // Invariants

  /** Every opening that was accepted carries the outage it belongs to, and its instant says which. */
  ghost predicate OpeningOk(s: State, e: EventId)
    requires e in s.outage
  {
    && e in s.events && s.events[e].lifecycle == Opened && s.events[e].key.Some?
    && var k := IncidentOf(s.events[e]);
    && k in s.incidents && k in s.outages && 1 <= s.outage[e] <= s.outages[k]
    && s.events[e].occurredAt <= s.incidents[k].LastOpened()
    && (s.outage[e] == s.outages[k] && s.incidents[k].status == Open ==> s.incidents[k].openedAt <= s.events[e].occurredAt)
    && (s.outage[e] < s.outages[k] ==> s.events[e].occurredAt < s.incidents[k].openedAt)
  }

  ghost predicate IncidentsOk(s: State) {
    && (forall k :: k in s.incidents ==> WellFormed(Some(s.incidents[k])))
    && (forall k :: k in s.outages ==> k in s.incidents && 1 <= s.outages[k])
    && (forall k :: k in s.incidents && s.incidents[k].status == Open ==> k in s.outages)
    && (forall e :: e in s.outage ==> OpeningOk(s, e))
  }

  ghost predicate RowOk(s: State, r: RowKey)
    requires r in s.rows
  {
    var row := s.rows[r];
    && r.event in s.events
    && (s.events[r.event].lifecycle != Plain ==> s.events[r.event].key.Some?)
    && (s.events[r.event].lifecycle == Opened ==> r.event in s.outage)
    && (row.status == Processing <==> row.leaseUntil.Some?)
    && (row.status == Processing ==> row.nextAttemptAt <= s.now)
    && (row.status == Delivered <==> row.deliveredAt.Some?)
  }

  ghost predicate RowsOk(s: State) {
    forall r :: r in s.rows ==> RowOk(s, r)
  }

  /** A lease value never comes back: it bounds every value the row can still be given. */
  ghost predicate ClaimOk(s: State, i: nat)
    requires i < |s.issued|
  {
    var c := s.issued[i];
    && c.row in s.rows && c.row.event in s.events && c.event == s.events[c.row.event]
    && c.lease <= s.now + LEASE_MS
    && (s.rows[c.row].status == Pending ==> c.lease < s.rows[c.row].nextAttemptAt + LEASE_MS)
    && (s.rows[c.row].status == Processing ==> s.rows[c.row].leaseUntil.Some? && c.lease <= s.rows[c.row].leaseUntil.value)
  }

  /** Successive claims of one row carry strictly increasing lease values. */
  ghost predicate LeasesIncrease(s: State) {
    forall i, j :: 0 <= i < j < |s.issued| && s.issued[i].row == s.issued[j].row ==> s.issued[i].lease < s.issued[j].lease
  }

  ghost predicate FenceOk(s: State) {
    && (forall i :: 0 <= i < |s.issued| ==> ClaimOk(s, i))
    && LeasesIncrease(s)
    && (forall c :: c in s.held ==> c in s.issued)
  }

  /** A repeat follows a delivered row of the same event, subscription and channel. */
  ghost predicate LinkOk(s: State, r: RowKey)
    requires r.index > 0
  {
    var before := r.(index := r.index - 1);
    && before in s.rows && s.rows[before].status == Delivered
    && r.channel != InApp && r.event in s.events && s.events[r.event].lifecycle == Opened
  }

  ghost predicate ChainOk(s: State) {
    forall r :: r in s.rows && r.index > 0 ==> LinkOk(s, r)
  }

  ghost predicate Inv(s: State) {
    IncidentsOk(s) && RowsOk(s) && FenceOk(s) && ChainOk(s)
  }

  // ---------------------------------------------------------------------------
  // Incidents and outages are only changed by emission

  ghost predicate TablesKept(s: State, s': State) {
    s'.events == s.events && s'.incidents == s.incidents && s'.outages == s.outages && s'.outage == s.outage
  }

  /** Emission, without the rows. */
  ghost predicate EmitTables(s: State, s': State, id: EventId, event: Event) {
    && s'.events == s.events[id := event]
    && s'.incidents == UpdateIncident(s.incidents, id, event).0
    && if UpdateIncident(s.incidents, id, event).1 && event.lifecycle == Opened && event.key.Some? then
         var k := IncidentOf(event);
         var n := OutageNumber(s.incidents, s.outages, k);
         s'.outages == s.outages[k := n] && s'.outage == s.outage[id := n]
       else
         s'.outages == s.outages && s'.outage == s.outage
  }

  lemma EmitKeepsOpening(s: State, s': State, id: EventId, event: Event, e: EventId)
    requires IncidentsOk(s) && id !in s.events && event.key.Some? && event.lifecycle != Plain
    requires EmitTables(s, s', id, event) && e in s'.outage
    ensures OpeningOk(s', e)
  {
    var k := IncidentOf(event);
    AbsorbKeepsOrder(Lookup(s.incidents, k), event.lifecycle, id, event.occurredAt);
    if e != id {
      assert OpeningOk(s, e);
    } else {
      assert e in s.outage ==> OpeningOk(s, e);
    }
  }

  lemma EmitKeepsIncidents(s: State, s': State, id: EventId, event: Event)
    requires IncidentsOk(s) && id !in s.events && (event.lifecycle != Plain ==> event.key.Some?)
    requires EmitTables(s, s', id, event)
    ensures IncidentsOk(s')
  {
    if event.lifecycle == Plain {
      forall e | e in s'.outage ensures OpeningOk(s', e) { assert OpeningOk(s, e); }
    } else {
      AbsorbKeepsOrder(Lookup(s.incidents, IncidentOf(event)), event.lifecycle, id, event.occurredAt);
      forall e | e in s'.outage ensures OpeningOk(s', e) { EmitKeepsOpening(s, s', id, event, e); }
    }
  }

  /** Outage counters never go back, a closed outage is only followed by a new one, and an opening is
      only ever accepted into the outage that is open. */
  ghost predicate OutageEvolves(s: State, s': State, k: IncidentKey)
    requires k in s.outages
  {
    && k in s'.outages && s.outages[k] <= s'.outages[k]
    && (k in s.incidents && s.incidents[k].status == Resolved && s'.outages[k] == s.outages[k] ==>
          k in s'.incidents && s'.incidents[k].status == Resolved)
  }

  ghost predicate OpeningAccepted(s: State, s': State, e: EventId)
    requires e in s'.outage
  {
    && e !in s.events && e in s'.events && s'.events[e].key.Some?
    && var k := IncidentOf(s'.events[e]);
    && k in s'.outages && s'.outage[e] == s'.outages[k] && IsOpen(s'.incidents, k)
    && (k in s.outages && !IsOpen(s.incidents, k) ==> s.outages[k] < s'.outages[k])
  }

  ghost predicate OutagesEvolve(s: State, s': State) {
    && (forall e :: e in s.events ==> e in s'.events && s'.events[e] == s.events[e])
    && (forall e :: e in s.outage ==> e in s'.outage && s'.outage[e] == s.outage[e])
    && (forall k :: k in s.outages ==> OutageEvolves(s, s', k))
    && (forall e :: e in s'.outage && e !in s.outage ==> OpeningAccepted(s, s', e))
  }

  lemma EmitOutages(s: State, s': State, id: EventId, event: Event)
    requires IncidentsOk(s) && id !in s.events && (event.lifecycle != Plain ==> event.key.Some?)
    requires EmitTables(s, s', id, event)
    ensures OutagesEvolve(s, s')
  {
    assert id in s.outage ==> OpeningOk(s, id);
    if event.lifecycle != Plain {
      var key := IncidentOf(event);
      var after := Absorb(Lookup(s.incidents, key), event.lifecycle, id, event.occurredAt);
      AbsorbKeepsOrder(Lookup(s.incidents, key), event.lifecycle, id, event.occurredAt);
      assert s'.incidents == s.incidents[key := after.row.value];
      forall k | k in s.outages
        ensures OutageEvolves(s, s', k)
      {
      }
    }
  }

  // ---------------------------------------------------------------------------
  // Every action moves rows along the life cycle

  ghost predicate Evolves(s: State, s': State) {
    RowsEvolve(s, s') && ClaimsEvolve(s, s') && OutagesEvolve(s, s') && IncidentsOk(s') && OneNewEvent(s, s')
  }

  /** An action records at most one event. */
  ghost predicate OneNewEvent(s: State, s': State) {
    forall e, d :: e in s'.events && e !in s.events && d in s'.events && d !in s.events ==> e == d
  }

  lemma QuietStepEvolves(s: State, s': State)
    requires IncidentsOk(s) && TablesKept(s, s') && RowsEvolve(s, s') && ClaimsEvolve(s, s')
    ensures Evolves(s, s')
  {
    forall e | e in s'.outage ensures OpeningOk(s', e) { assert OpeningOk(s, e); }
  }

  lemma EmitRowsEvolve(s: State, id: EventId, event: Event, target: Option<UserId>, now: int)
    requires RowsOk(s) && Emittable(s, id, event, now)
    ensures RowsEvolve(s, Emit(s, id, event, target, now)) && ClaimsEvolve(s, Emit(s, id, event, target, now))
  {
    var s' := Emit(s, id, event, target, now);
    if UpdateIncident(s.incidents, id, event).1 {
      forall r | r in s.rows
        ensures r in s'.rows && RowMove(s, s', r)
      {
        assert RowOk(s, r);
      }
      forall r | r in s'.rows && r !in s.rows
        ensures RowBorn(s, s', r)
      {
        assert r in FanOut(s.dir, id, event, target);
        assert FirstOfChain(s, s', r);
      }
    }
  }

  lemma EmitEvolves(s: State, id: EventId, event: Event, target: Option<UserId>, now: int)
    requires Inv(s) && Emittable(s, id, event, now)
    ensures Evolves(s, Emit(s, id, event, target, now))
  {
    var s' := Emit(s, id, event, target, now);
    assert EmitTables(s, s', id, event);
    EmitKeepsIncidents(s, s', id, event);
    EmitOutages(s, s', id, event);
    EmitRowsEvolve(s, id, event, target, now);
  }

  lemma ConfigureEvolves(s: State, dir: Directory)
    requires IncidentsOk(s)
    ensures Evolves(s, s.(dir := dir))
  {
    QuietStepEvolves(s, s.(dir := dir));
  }

  lemma SweepResolvedEvolves(s: State, now: int)
    requires IncidentsOk(s) && s.now <= now
    ensures Evolves(s, SweepResolved(s, now))
  {
    QuietStepEvolves(s, SweepResolved(s, now));
  }

  lemma SweepUnauthorizedEvolves(s: State, now: int)
    requires IncidentsOk(s) && s.now <= now
    ensures Evolves(s, SweepUnauthorized(s, now))
  {
    QuietStepEvolves(s, SweepUnauthorized(s, now));
  }

  lemma ClaimEvolves(s: State, r: RowKey, now: int, later: int)
    requires IncidentsOk(s) && s.now <= now <= later && r in s.rows && Claimable(s, r, now)
    ensures Evolves(s, TakeClaim(s, r, now, later))
  {
    var s' := TakeClaim(s, r, now, later);
    assert Claimed(s, s', r);
    QuietStepEvolves(s, s');
  }

  /** A held claim remembers the event of its row. */
  ghost predicate ClaimAgrees(s: State, c: Claim) {
    c.row.event in s.events && c.event == s.events[c.row.event]
  }

  lemma HeldClaimAgrees(s: State, c: Claim)
    requires FenceOk(s) && c in s.held
    ensures ClaimAgrees(s, c)
  {
    var i :| 0 <= i < |s.issued| && s.issued[i] == c;
    assert ClaimOk(s, i);
  }

  lemma FinishEvolves(s: State, c: Claim, now: int, persisted: bool)
    requires IncidentsOk(s) && RowsOk(s) && c in s.held && ClaimAgrees(s, c) && s.now <= now
    ensures Evolves(s, Finished(s, c, now, persisted))
  {
    var s' := Finished(s, c, now, persisted);
    if Holds(s.rows, c) {
      assert RowOk(s, c.row);
      assert Held(s, c.row);
      assert RowMove(s, s', c.row);
      forall r | r in s'.rows && r !in s.rows
        ensures RowBorn(s, s', r)
      {
        assert Completed(s, s', c.row);
        assert Repeated(s, s', r);
      }
    }
    QuietStepEvolves(s, s');
  }

  lemma FailEvolves(s: State, c: Claim, later: int)
    requires IncidentsOk(s) && RowsOk(s) && c in s.held && s.now <= later
    ensures Evolves(s, FailedBy(s, c, later))
  {
    var s' := FailedBy(s, c, later);
    if Holds(s.rows, c) {
      assert Held(s, c.row);
      assert RowMove(s, s', c.row);
    }
    QuietStepEvolves(s, s');
  }

  /** One step of the machine: rows follow their life cycle, claims accumulate, outages never go back. */
  lemma StepEvolves(s: State, s': State)
    requires Inv(s) && Next(s, s')
    ensures Evolves(s, s')
  {
    var a: Action :| Enabled(s, a) && s' == Apply(s, a);
    match a
    case Configure(dir) => ConfigureEvolves(s, dir);
    case EmitEvent(id, event, target, now) => EmitEvolves(s, id, event, target, now);
    case SweepResolvedRows(now) => SweepResolvedEvolves(s, now);
    case SweepUnauthorizedRows(now) => SweepUnauthorizedEvolves(s, now);
    case ClaimRow(r, now, later) => ClaimEvolves(s, r, now, later);
    case FinishClaim(c, now, persisted) =>
      HeldClaimAgrees(s, c);
      FinishEvolves(s, c, now, persisted);
    case FailClaim(c, now, later) => FailEvolves(s, c, later);
  }
}
