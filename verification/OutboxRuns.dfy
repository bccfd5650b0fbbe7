/** What holds over every run of the outbox, however its actions interleave. */
module OutboxRuns {
  import opened Wrappers
  import opened Incidents
  import opened QuietHours
  import opened Outbox
  import opened OutboxSteps

  // ---------------------------------------------------------------------------
  // The invariants are kept

  lemma EvolvingKeepsRows(s: State, s': State)
    requires RowsOk(s) && Evolves(s, s')
    ensures RowsOk(s')
  {
    forall r | r in s'.rows
      ensures RowOk(s', r)
    {
      if r in s.rows {
        assert RowOk(s, r) && RowMove(s, s', r);
      } else if FirstOfChain(s, s', r) {
        EventsBehindRows(s, s', r);
      } else {
        var c :| c in s.held && NextInChain(c.row) == r && c.row in s.rows && c.row in s'.rows
          && Completed(s, s', c.row) && s'.rows[r] == RepeatRow(s.rows[c.row].user, c, s'.now);
        assert RowOk(s, c.row);
      }
    }
  }

  lemma EventsBehindRows(s: State, s': State, r: RowKey)
    requires r !in s.rows && r in s'.rows && FirstOfChain(s, s', r) && Evolves(s, s')
    ensures RowOk(s', r)
  {
  }

  lemma EvolvingKeepsFence(s: State, s': State)
    requires RowsOk(s) && FenceOk(s) && Evolves(s, s')
    ensures FenceOk(s')
  {
    var n := |s.issued|;
    forall i | 0 <= i < |s'.issued|
      ensures ClaimOk(s', i)
    {
      if i < n {
        assert ClaimOk(s, i);
        assert RowMove(s, s', s.issued[i].row) && RowOk(s, s.issued[i].row);
      } else {
        assert Claimed(s, s', s'.issued[n].row);
      }
    }
    forall i, j | 0 <= i < j < |s'.issued| && s'.issued[i].row == s'.issued[j].row
      ensures s'.issued[i].lease < s'.issued[j].lease
    {
      if j == n {
        NextClaimIsNewer(s, s', i);
      }
    }
    forall c | c in s'.held
      ensures c in s'.issued
    {
      if c in s.held {
        var i :| 0 <= i < n && s.issued[i] == c;
        assert s'.issued[i] == c;
      } else {
        assert s'.issued[n] == c;
      }
    }
  }

  /** A new claim's lease value exceeds every earlier one of its row: an expired lease is in the past,
      and a failure that cleared the lease also put the next attempt at least a lease away. */
  lemma NextClaimIsNewer(s: State, s': State, i: nat)
    requires RowsOk(s) && FenceOk(s) && ClaimsEvolve(s, s')
    requires |s'.issued| == |s.issued| + 1 && i < |s.issued| && s.issued[i].row == s'.issued[|s.issued|].row
    ensures s.issued[i].lease < s'.issued[|s.issued|].lease
  {
    var c := s'.issued[|s.issued|];
    assert ClaimOk(s, i) && RowOk(s, c.row) && Claimed(s, s', c.row);
  }

  lemma RepeatExtendsChain(s: State, s': State, r: RowKey)
    requires RowsOk(s) && FenceOk(s) && OutagesEvolve(s, s')
    requires r !in s.rows && r in s'.rows && r.index > 0 && RowBorn(s, s', r)
    ensures LinkOk(s', r)
  {
    var c :| c in s.held && NextInChain(c.row) == r && c.row in s.rows && c.row in s'.rows
      && Completed(s, s', c.row) && Repeating(s.incidents, c);
    assert r.(index := r.index - 1) == c.row;
    HeldClaimAgrees(s, c);
  }

  lemma EvolvingKeepsChain(s: State, s': State)
    requires RowsOk(s) && FenceOk(s) && ChainOk(s) && Evolves(s, s')
    ensures ChainOk(s')
  {
    forall r | r in s'.rows && r.index > 0
      ensures LinkOk(s', r)
    {
      if r in s.rows {
        assert LinkOk(s, r);
        assert RowMove(s, s', r.(index := r.index - 1));
      } else {
        RepeatExtendsChain(s, s', r);
      }
    }
  }

  lemma StepKeepsInv(s: State, s': State)
    requires Inv(s) && Next(s, s')
    ensures Inv(s') && Evolves(s, s')
  {
    StepEvolves(s, s');
    EvolvingKeepsRows(s, s');
    EvolvingKeepsFence(s, s');
    EvolvingKeepsChain(s, s');
  }

  /** Every state of every run satisfies the invariants. */
  lemma {:induction false} RunKeepsInv(run: seq<State>, i: nat)
    requires IsRun(run) && i < |run|
    ensures Inv(run[i])
  {
    if i > 0 {
      RunKeepsInv(run, i - 1);
      assert Next(run[i - 1], run[i]);
      StepKeepsInv(run[i - 1], run[i]);
    }
  }

  lemma RunStep(run: seq<State>, i: nat)
    requires IsRun(run) && i + 1 < |run|
    ensures Inv(run[i]) && Inv(run[i + 1]) && Evolves(run[i], run[i + 1])
  {
    RunKeepsInv(run, i);
    assert Next(run[i], run[i + 1]);
    StepKeepsInv(run[i], run[i + 1]);
  }

  // ---------------------------------------------------------------------------
  // Events are kept, and idempotency keys are used once

  lemma {:induction false} RunKeepsKeysUnique(run: seq<State>, i: nat)
    requires IsRun(run) && i < |run|
    ensures KeysUnique(run[i].events)
  {
    if i > 0 {
      RunKeepsKeysUnique(run, i - 1);
      assert Next(run[i - 1], run[i]);
      StepKeepsKeysUnique(run[i - 1], run[i]);
    }
  }

  lemma StepKeepsKeysUnique(s: State, s': State)
    requires Next(s, s') && KeysUnique(s.events)
    ensures KeysUnique(s'.events)
  {
    var a: Action :| Enabled(s, a) && s' == Apply(s, a);
    if a.EmitEvent? {
      forall project, key, d, e | RecordedUnder(s'.events, project, key, d) && RecordedUnder(s'.events, project, key, e)
        ensures d == e
      {
        assert d != a.id ==> RecordedUnder(s.events, project, key, d);
        assert e != a.id ==> RecordedUnder(s.events, project, key, e);
      }
    }
  }

  lemma {:induction false} EventsPersist(run: seq<State>, i: nat, j: nat, e: EventId)
    requires IsRun(run) && i <= j < |run| && e in run[i].events
    ensures e in run[j].events && run[j].events[e] == run[i].events[e]
    decreases j - i
  {
    if i < j {
      EventsPersist(run, i, j - 1, e);
      EventStays(run, j - 1, e);
    }
  }

  lemma EventStays(run: seq<State>, j: nat, e: EventId)
    requires IsRun(run) && j + 1 < |run| && e in run[j].events
    ensures e in run[j + 1].events && run[j + 1].events[e] == run[j].events[e]
  {
    RunStep(run, j);
  }

  // ---------------------------------------------------------------------------
  // Outages: the timestamp test is a generation test

  /** The opening was accepted in the outage that is going on now. */
  ghost predicate InCurrentOutage(s: State, e: EventId) {
    && e in s.outage && e in s.events && s.events[e].key.Some?
    && var k := IncidentOf(s.events[e]);
    && IsOpen(s.incidents, k) && k in s.outages && s.outage[e] == s.outages[k]
  }

  /** In every reachable state the timestamp test of the claim, sweep, completion and failure code
      decides exactly whether an accepted opening belongs to the outage that is going on. */
  lemma TimestampTestIsGenerationTest(run: seq<State>, i: nat, e: EventId)
    requires IsRun(run) && i < |run| && e in run[i].outage
    ensures e in run[i].events
    ensures OpenSince(run[i].incidents, run[i].events[e]) <==> InCurrentOutage(run[i], e)
  {
    RunKeepsInv(run, i);
    assert OpeningOk(run[i], e);
  }

  /** opened_at <= last_opened_at <= resolved_at in every reachable state, resolved_at being present
      exactly on resolved incidents. */
  lemma IncidentTimesOrdered(run: seq<State>, i: nat, k: IncidentKey)
    requires IsRun(run) && i < |run| && k in run[i].incidents
    ensures var incident := run[i].incidents[k];
      && incident.openedAt <= incident.LastOpened()
      && (incident.status == Resolved <==> incident.resolvedAt.Some?)
      && (incident.resolvedAt.Some? ==> incident.LastOpened() <= incident.resolvedAt.value)
  {
    RunKeepsInv(run, i);
    assert WellFormed(Some(run[i].incidents[k]));
  }

  // ---------------------------------------------------------------------------
  // Closed outages stay silent

  /** Outage n of incident k is over. */
  ghost predicate Closed(s: State, k: IncidentKey, n: nat) {
    && k in s.outages && n <= s.outages[k]
    && (n < s.outages[k] || (k in s.incidents && s.incidents[k].status == Resolved))
  }

  ghost predicate RowOfOutage(s: State, r: RowKey, k: IncidentKey, n: nat) {
    && r.event in s.outage && s.outage[r.event] == n
    && r.event in s.events && s.events[r.event].key.Some? && IncidentOf(s.events[r.event]) == k
  }

  lemma ClosedStepIsSilent(s: State, s': State, k: IncidentKey, n: nat, r: RowKey)
    requires IncidentsOk(s) && RowsOk(s) && RowsEvolve(s, s') && OutagesEvolve(s, s') && Closed(s, k, n)
    requires r in s'.rows && RowOfOutage(s', r, k, n)
    ensures Closed(s', k, n)
    ensures r in s.rows && RowOfOutage(s, r, k, n)
    ensures s'.rows[r].status == Delivered ==> s.rows[r].status == Delivered
  {
    assert OutageEvolves(s, s', k);
    assert r.event !in s.outage ==> OpeningAccepted(s, s', r.event);
    assert OpeningOk(s, r.event);
    assert !OpenSince(s.incidents, s.events[r.event]);
    assert r !in s.rows ==> RowBorn(s, s', r);
    assert RowMove(s, s', r);
  }

  lemma ClosedOutageStep(run: seq<State>, j: nat, k: IncidentKey, n: nat)
    requires IsRun(run) && j + 1 < |run| && Closed(run[j], k, n)
    ensures Closed(run[j + 1], k, n)
    ensures forall r :: r in run[j + 1].rows && RowOfOutage(run[j + 1], r, k, n) ==>
      && r in run[j].rows && RowOfOutage(run[j], r, k, n)
      && (run[j + 1].rows[r].status == Delivered ==> run[j].rows[r].status == Delivered)
  {
    RunStep(run, j);
    assert OutageEvolves(run[j], run[j + 1], k);
    forall r | r in run[j + 1].rows && RowOfOutage(run[j + 1], r, k, n)
      ensures r in run[j].rows && RowOfOutage(run[j], r, k, n)
      ensures run[j + 1].rows[r].status == Delivered ==> run[j].rows[r].status == Delivered
    {
      ClosedStepIsSilent(run[j], run[j + 1], k, n, r);
    }
  }

  /** Once an outage is over, whatever happens later - emissions, claims, lease expiries, failures,
      re-openings, any recovery_summary_mode - none of its openings is recorded delivered any more and
      none of them spawns a row. */
  lemma {:induction false} ClosedOutageStaysSilent(run: seq<State>, i: nat, j: nat, k: IncidentKey, n: nat, r: RowKey)
    requires IsRun(run) && i <= j < |run| && Closed(run[i], k, n)
    requires r in run[j].rows && RowOfOutage(run[j], r, k, n)
    ensures r in run[i].rows && RowOfOutage(run[i], r, k, n)
    ensures run[j].rows[r].status == Delivered ==> run[i].rows[r].status == Delivered
    decreases j - i
  {
    if i < j {
      ClosedPersists(run, i, j - 1, k, n);
      ClosedOutageStep(run, j - 1, k, n);
      ClosedOutageStaysSilent(run, i, j - 1, k, n, r);
    }
  }

  lemma {:induction false} ClosedPersists(run: seq<State>, i: nat, j: nat, k: IncidentKey, n: nat)
    requires IsRun(run) && i <= j < |run| && Closed(run[i], k, n)
    ensures Closed(run[j], k, n)
    decreases j - i
  {
    if i < j {
      ClosedPersists(run, i, j - 1, k, n);
      ClosedOutageStep(run, j - 1, k, n);
    }
  }

  /** An accepted recovery does close the outage that was going on. */
  lemma RecoveryCloses(s: State, id: EventId, event: Event, target: Option<UserId>, now: int)
    requires Inv(s) && Emittable(s, id, event, now) && event.lifecycle == Recovered
    requires IsOpen(s.incidents, IncidentOf(event)) && UpdateIncident(s.incidents, id, event).1
    ensures var k := IncidentOf(event);
      k in s.outages && Closed(Emit(s, id, event, target, now), k, s.outages[k])
  {
    var k := IncidentOf(event);
    AbsorbKeepsOrder(Lookup(s.incidents, k), Recovered, id, event.occurredAt);
    assert EmitTables(s, Emit(s, id, event, target, now), id, event);
  }

  // ---------------------------------------------------------------------------
  // Lease values are fencing tokens

  /** Successive claims of one row get strictly increasing lease values, over the whole run, even when a
      failure cleared the lease in between. */
  lemma ClaimsAreFenced(run: seq<State>, n: nat, i: nat, j: nat)
    requires IsRun(run) && n < |run| && i < j < |run[n].issued|
    requires run[n].issued[i].row == run[n].issued[j].row
    ensures run[n].issued[i].lease < run[n].issued[j].lease
  {
    RunKeepsInv(run, n);
  }

  lemma {:induction false} IssuedIsHistory(run: seq<State>, m: nat, n: nat)
    requires IsRun(run) && m <= n < |run|
    ensures run[m].issued <= run[n].issued
    decreases n - m
  {
    if m < n {
      IssuedIsHistory(run, m, n - 1);
      RunStep(run, n - 1);
    }
  }

  /** After a row has been claimed again, the earlier worker's completion and failure change no row, for
      the rest of the run. */
  lemma StaleWorkerChangesNothing(run: seq<State>, m: nat, n: nat, i: nat, j: nat, now: int, persisted: bool)
    requires IsRun(run) && m <= n < |run| && i < j < |run[m].issued|
    requires run[m].issued[i].row == run[m].issued[j].row
    ensures var c := run[m].issued[i];
      && FinishRows(run[n].incidents, run[n].rows, c, now, persisted) == run[n].rows
      && FailRows(run[n].incidents, run[n].rows, c, now) == run[n].rows
  {
    var s := run[n];
    var c, d := run[m].issued[i], run[m].issued[j];
    IssuedIsHistory(run, m, n);
    RunKeepsInv(run, n);
    assert s.issued[i] == c && s.issued[j] == d;
    assert ClaimOk(s, j) && RowOk(s, c.row);
    assert c.lease < d.lease;
    assert !Holds(s.rows, c);
  }

  /** Of all the workers holding a claim on one row, at most one can still change it. */
  lemma OneWorkerHolds(run: seq<State>, n: nat, c: Claim, d: Claim)
    requires IsRun(run) && n < |run| && c in run[n].held && d in run[n].held && c.row == d.row
    requires Holds(run[n].rows, c) && Holds(run[n].rows, d)
    ensures c == d
  {
    RunKeepsInv(run, n);
    var s := run[n];
    var i :| 0 <= i < |s.issued| && s.issued[i] == c;
    var j :| 0 <= j < |s.issued| && s.issued[j] == d;
    assert i < j || j < i || i == j;
  }

  lemma SettledRowStep(run: seq<State>, j: nat, r: RowKey)
    requires IsRun(run) && j + 1 < |run| && r in run[j].rows && !Live(run[j].rows[r])
    ensures r in run[j + 1].rows && run[j + 1].rows[r] == run[j].rows[r]
  {
    RunStep(run, j);
    assert RowMove(run[j], run[j + 1], r);
  }

  /** A row that has left pending and processing never changes again, so it is delivered at most once. */
  lemma {:induction false} SettledRowsStay(run: seq<State>, i: nat, j: nat, r: RowKey)
    requires IsRun(run) && i <= j < |run| && r in run[i].rows && !Live(run[i].rows[r])
    ensures r in run[j].rows && run[j].rows[r] == run[i].rows[r]
    decreases j - i
  {
    if i < j {
      SettledRowsStay(run, i, j - 1, r);
      SettledRowStep(run, j - 1, r);
    }
  }

  // ---------------------------------------------------------------------------
  // Repeat chains

  /** The rows of one (event, subscription, channel) are numbered 0..k without a gap and all but the last
      are delivered, so at most one of them is live. */
  lemma {:induction false} ChainIsContiguous(run: seq<State>, i: nat, r: RowKey, n: nat)
    requires IsRun(run) && i < |run| && r in run[i].rows && n < r.index
    ensures r.(index := n) in run[i].rows && run[i].rows[r.(index := n)].status == Delivered
    decreases r.index - n
  {
    if n + 1 < r.index {
      ChainIsContiguous(run, i, r, n + 1);
      LinkInRun(run, i, r.(index := n + 1));
    } else {
      LinkInRun(run, i, r);
    }
  }

  lemma LinkInRun(run: seq<State>, i: nat, r: RowKey)
    requires IsRun(run) && i < |run| && r in run[i].rows && r.index > 0
    ensures var before := r.(index := r.index - 1); before in run[i].rows && run[i].rows[before].status == Delivered
  {
    RunKeepsInv(run, i);
    assert LinkOk(run[i], r);
  }

  lemma AtMostOneLive(run: seq<State>, i: nat, a: RowKey, b: RowKey)
    requires IsRun(run) && i < |run| && a in run[i].rows && b in run[i].rows
    requires a.event == b.event && a.sub == b.sub && a.channel == b.channel
    requires Live(run[i].rows[a]) && Live(run[i].rows[b])
    ensures a == b
  {
    if a.index < b.index {
      ChainIsContiguous(run, i, b, a.index);
    } else if b.index < a.index {
      ChainIsContiguous(run, i, a, b.index);
    }
  }

  // ---------------------------------------------------------------------------
  // Reachability

  ghost predicate EndsRun(run: seq<State>, s: State) {
    IsRun(run) && run[|run| - 1] == s
  }

  ghost predicate Reachable(s: State) {
    exists run :: EndsRun(run, s)
  }

  ghost predicate IsPath(path: seq<State>, from: State, to: State) {
    && path != [] && path[0] == from && path[|path| - 1] == to
    && forall i, j {:trigger Next(path[i], path[j])} :: 0 <= i < j < |path| && j == i + 1 ==> Next(path[i], path[j])
  }

  /** `to` follows from `from` by some number of actions. */
  ghost predicate Leads(from: State, to: State) {
    exists path :: IsPath(path, from, to)
  }

  lemma InitialIsReachable(s: State)
    requires Initial(s)
    ensures Reachable(s)
  {
    assert EndsRun([s], s);
  }

  lemma ReachableHasInv(s: State)
    requires Reachable(s)
    ensures Inv(s)
  {
    var run :| EndsRun(run, s);
    RunKeepsInv(run, |run| - 1);
  }

  lemma StepIsReachable(s: State, s': State)
    requires Reachable(s) && Next(s, s')
    ensures Reachable(s')
  {
    var run :| EndsRun(run, s);
    var longer := run + [s'];
    forall i, j | 0 <= i < j < |longer| && j == i + 1
      ensures Next(longer[i], longer[j])
    {
      if j < |run| { assert Next(run[i], run[j]); }
    }
    assert EndsRun(longer, s');
  }

  /** Taking an enabled action from a reachable state. */
  lemma Take(s: State, a: Action)
    requires Reachable(s) && Enabled(s, a)
    ensures Next(s, Apply(s, a)) && Reachable(Apply(s, a))
  {
    StepIsReachable(s, Apply(s, a));
  }

  lemma EmitStores(s: State, id: EventId, event: Event, target: Option<UserId>, now: int)
    ensures Emit(s, id, event, target, now).events == s.events[id := event]
  {
  }

  lemma EmitIsStep(s: State, id: EventId, event: Event, target: Option<UserId>, now: int)
    requires Emittable(s, id, event, now)
    ensures Next(s, Emit(s, id, event, target, now))
  {
    assert Enabled(s, EmitEvent(id, event, target, now));
    assert Apply(s, EmitEvent(id, event, target, now)) == Emit(s, id, event, target, now);
  }

  lemma TakeEmit(s: State, id: EventId, event: Event, target: Option<UserId>, now: int)
    requires Reachable(s) && Emittable(s, id, event, now)
    ensures Next(s, Emit(s, id, event, target, now)) && Reachable(Emit(s, id, event, target, now))
  {
    EmitIsStep(s, id, event, target, now);
    StepIsReachable(s, Emit(s, id, event, target, now));
  }

  lemma TakeSweeps(s: State, now: int)
    requires Reachable(s) && s.now <= now
    ensures Next(s, SweepResolved(s, now)) && Reachable(SweepResolved(s, now))
    ensures Next(s, SweepUnauthorized(s, now)) && Reachable(SweepUnauthorized(s, now))
  {
    Take(s, SweepResolvedRows(now));
    Take(s, SweepUnauthorizedRows(now));
  }

  lemma TakeClaimRow(s: State, r: RowKey, now: int, later: int)
    requires Reachable(s) && s.now <= now <= later && FirstClaimable(s, r, now)
    ensures Next(s, TakeClaim(s, r, now, later)) && Reachable(TakeClaim(s, r, now, later))
  {
    Take(s, ClaimRow(r, now, later));
  }

  lemma TakeFinish(s: State, claim: Claim, now: int, persisted: bool)
    requires Reachable(s) && claim in s.held && s.now <= now
    ensures Next(s, Finished(s, claim, now, persisted)) && Reachable(Finished(s, claim, now, persisted))
  {
    Take(s, FinishClaim(claim, now, persisted));
  }

  lemma TakeFail(s: State, claim: Claim, now: int, later: int)
    requires Reachable(s) && claim in s.held && s.now <= now <= later
    ensures Next(s, FailedBy(s, claim, later)) && Reachable(FailedBy(s, claim, later))
  {
    Take(s, FailClaim(claim, now, later));
  }

  lemma LeadsNowhere(s: State)
    ensures Leads(s, s)
  {
    assert IsPath([s], s, s);
  }

  lemma LeadsOn(a: State, b: State, c: State)
    requires Leads(a, b) && Next(b, c)
    ensures Leads(a, c)
  {
    var path :| IsPath(path, a, b);
    var longer := path + [c];
    forall i, j | 0 <= i < j < |longer| && j == i + 1
      ensures Next(longer[i], longer[j])
    {
      if j < |path| { assert Next(path[i], path[j]); }
    }
    assert IsPath(longer, a, c);
  }

  lemma LeadsTogether(a: State, b: State, c: State)
    requires Leads(a, b) && Leads(b, c)
    ensures Leads(a, c)
  {
    var left :| IsPath(left, a, b);
    var right :| IsPath(right, b, c);
    var path := left + right[1..];
    forall i, j | 0 <= i < j < |path| && j == i + 1
      ensures Next(path[i], path[j])
    {
      if j < |left| {
        assert Next(left[i], left[j]);
      } else {
        assert Next(right[i - |left| + 1], right[j - |left| + 1]);
      }
    }
    assert IsPath(path, a, c);
  }
}
