/** How often one outage may reach one subscription and channel, and how far apart. */
module OutboxLimits {
  import opened Wrappers
  import opened Incidents
  import opened QuietHours
  import opened Outbox
  import opened OutboxSteps
  import opened OutboxRuns

  predicate SameLimits(a: Subscription, b: Subscription) {
    a.cooldown == b.cooldown && a.cooldownSeconds == b.cooldownSeconds && a.repeatCount == b.repeatCount
  }

  /** Nobody edits the cooldown settings of subscription x during the run. */
  ghost predicate FixedSettings(run: seq<State>, x: SubId, settings: Subscription) {
    forall i :: 0 <= i < |run| && x in run[i].dir.subs ==> SameLimits(run[i].dir.subs[x], settings)
  }

  /** How many rows a chain may have; until_recovery chains are unbounded. */
  function ChainLimit(settings: Subscription): nat {
    if settings.cooldown == RepeatCount then settings.repeatCount else 1
  }

  // ---------------------------------------------------------------------------
  // Invariants of one subscription with fixed settings

  ghost predicate ClaimsRemember(s: State, x: SubId, settings: Subscription) {
    forall c :: c in s.held && c.row.sub == x ==> SameLimits(c.sub, settings)
  }

  ghost predicate IndexOk(r: RowKey, settings: Subscription) {
    settings.cooldown != UntilRecovery ==> r.index < ChainLimit(settings)
  }

  /** Row r was not due before the cooldown after its predecessor was over. */
  ghost predicate Spaced(s: State, r: RowKey, settings: Subscription)
    requires r in s.rows
  {
    && (s.rows[r].deliveredAt.Some? ==> s.rows[r].nextAttemptAt <= s.rows[r].deliveredAt.value)
    && (r.index > 0 ==>
          var before := r.(index := r.index - 1);
          && before in s.rows && s.rows[before].deliveredAt.Some?
          && s.rows[before].deliveredAt.value + settings.cooldownSeconds * 1000 <= s.rows[r].nextAttemptAt)
  }

  ghost predicate RowLimits(s: State, x: SubId, settings: Subscription) {
    forall r :: r in s.rows && r.sub == x ==> IndexOk(r, settings) && Spaced(s, r, settings)
  }

  /** Two rows of one subscription and channel that count against the same outage. */
  ghost predicate Rivals(s: State, x: SubId, q: RowKey, r: RowKey) {
    && q in s.rows && r in s.rows && q.sub == x && r.sub == x && q.channel == r.channel
    && Counts(s.rows[q].status) && Counts(s.rows[r].status)
    && q.event in s.outage && r.event in s.outage && s.outage[q.event] == s.outage[r.event]
    && q.event in s.events && r.event in s.events
    && s.events[q.event].key.Some? && s.events[r.event].key.Some?
    && IncidentOf(s.events[q.event]) == IncidentOf(s.events[r.event])
  }

  ghost predicate OneChain(s: State, x: SubId) {
    forall q, r :: Rivals(s, x, q, r) ==> q.event == r.event
  }

  ghost predicate LimitsOk(s: State, x: SubId, settings: Subscription) {
    ClaimsRemember(s, x, settings) && RowLimits(s, x, settings)
    && (IncidentScoped(settings.cooldown) ==> OneChain(s, x))
  }

  // ---------------------------------------------------------------------------
  // They are kept

  lemma DeferredIsLater(t: int, priority: int, offset: int, start: Option<ClockMinute>, end: Option<ClockMinute>)
    ensures t <= Deferred(t, priority, offset, start, end)
    ensures priority < 5 ==> !IsQuietTime(Deferred(t, priority, offset, start, end), offset, start, end)
  {
    if IsQuietTime(t, offset, start, end) {
      QuietEndIsFirst(t, offset, start.value, end.value);
    }
  }

  lemma RepeatKeepsLimits(s: State, s': State, x: SubId, settings: Subscription, r: RowKey)
    requires RowsOk(s) && ClaimsRemember(s, x, settings)
    requires r !in s.rows && r in s'.rows && r.sub == x && Repeated(s, s', r)
    ensures IndexOk(r, settings) && Spaced(s', r, settings)
  {
  }

  lemma StepKeepsRowLimits(s: State, s': State, x: SubId, settings: Subscription)
    requires RowsOk(s) && RowsEvolve(s, s') && ClaimsRemember(s, x, settings) && RowLimits(s, x, settings)
    ensures RowLimits(s', x, settings)
  {
    forall r | r in s'.rows && r.sub == x
      ensures IndexOk(r, settings) && Spaced(s', r, settings)
    {
      if r in s.rows {
        assert RowMove(s, s', r) && RowOk(s, r) && Spaced(s, r, settings);
        if r.index > 0 { assert RowMove(s, s', r.(index := r.index - 1)); }
      } else if r.index > 0 {
        assert RowBorn(s, s', r);
        RepeatKeepsLimits(s, s', x, settings, r);
      } else {
        assert RowBorn(s, s', r);
      }
    }
  }

  /** A counting row that was not created with its event has a counting ancestor in the state before. */
  lemma Ancestor(s: State, s': State, r: RowKey) returns (a: RowKey)
    requires RowsEvolve(s, s') && r in s'.rows && Counts(s'.rows[r].status)
    requires r in s.rows || Repeated(s, s', r)
    ensures a in s.rows && Counts(s.rows[a].status)
    ensures a.event == r.event && a.sub == r.sub && a.channel == r.channel
  {
    if r in s.rows {
      a := r;
      assert RowMove(s, s', r);
    } else {
      var c :| c in s.held && NextInChain(c.row) == r && c.row in s.rows && c.row in s'.rows && Completed(s, s', c.row);
      a := c.row;
    }
  }

  /** A first row that counts finds no counting row of the same outage: that is what suppression checks. */
  lemma FirstRowStandsAlone(s: State, s': State, x: SubId, settings: Subscription, r: RowKey, a: RowKey)
    requires IncidentsOk(s) && RowsOk(s) && IncidentsOk(s') && OutagesEvolve(s, s') && IncidentScoped(settings.cooldown)
    requires r !in s.rows && r in s'.rows && r.sub == x && FirstOfChain(s, s', r) && Counts(s'.rows[r].status)
    requires SameLimits(s'.dir.subs[x], settings)
    requires a in s.rows && Counts(s.rows[a].status) && a.sub == x && a.channel == r.channel
    requires a.event in s'.outage && r.event in s'.outage
    requires a.event in s'.events && s'.events[a.event].key.Some? && s'.events[r.event].key.Some?
    requires IncidentOf(s'.events[a.event]) == IncidentOf(s'.events[r.event])
    ensures s'.outage[a.event] != s'.outage[r.event]
  {
    var event := s'.events[r.event];
    var k := IncidentOf(event);
    assert RowOk(s, a);
    assert OpeningAccepted(s, s', r.event) && OpeningOk(s', a.event) && OpeningOk(s', r.event);
    var sub := s'.dir.subs[x];
    var cutoff := Cutoff(s'.incidents, sub, k, s'.now);
    assert !IsRecent(s'.events, s.rows, a, x, r.channel, k, sub.cooldown, cutoff);
  }

  lemma StepKeepsOneChain(s: State, s': State, x: SubId, settings: Subscription)
    requires IncidentsOk(s) && RowsOk(s) && Evolves(s, s') && OneChain(s, x) && IncidentScoped(settings.cooldown)
    requires x in s'.dir.subs ==> SameLimits(s'.dir.subs[x], settings)
    ensures OneChain(s', x)
  {
    forall q, r | Rivals(s', x, q, r)
      ensures q.event == r.event
    {
      assert q !in s.rows ==> RowBorn(s, s', q);
      assert r !in s.rows ==> RowBorn(s, s', r);
      if q in s.rows || Repeated(s, s', q) {
        var a := Ancestor(s, s', q);
        assert RowOk(s, a) && a.event in s.outage;
        if r in s.rows || Repeated(s, s', r) {
          var b := Ancestor(s, s', r);
          assert RowOk(s, b) && b.event in s.outage;
          assert Rivals(s, x, a, b);
        } else {
          FirstRowStandsAlone(s, s', x, settings, r, a);
        }
      } else if r in s.rows || Repeated(s, s', r) {
        var b := Ancestor(s, s', r);
        FirstRowStandsAlone(s, s', x, settings, q, b);
      }
    }
  }

  lemma StepKeepsLimits(s: State, s': State, x: SubId, settings: Subscription)
    requires Inv(s) && Evolves(s, s') && LimitsOk(s, x, settings)
    requires x in s.dir.subs ==> SameLimits(s.dir.subs[x], settings)
    requires x in s'.dir.subs ==> SameLimits(s'.dir.subs[x], settings)
    ensures LimitsOk(s', x, settings)
  {
    StepKeepsRowLimits(s, s', x, settings);
    if IncidentScoped(settings.cooldown) {
      StepKeepsOneChain(s, s', x, settings);
    }
  }

  lemma {:induction false} RunKeepsLimits(run: seq<State>, x: SubId, settings: Subscription, i: nat)
    requires IsRun(run) && FixedSettings(run, x, settings) && i < |run|
    ensures LimitsOk(run[i], x, settings)
  {
    if i > 0 {
      RunKeepsLimits(run, x, settings, i - 1);
      RunStep(run, i - 1);
      StepKeepsLimits(run[i - 1], run[i], x, settings);
    }
  }

  // ---------------------------------------------------------------------------
  // The bounds

  /** What subscription x and a channel were told about outage n of incident k. */
  ghost function DeliveredRows(s: State, x: SubId, channel: Channel, k: IncidentKey, n: nat): set<RowKey> {
    set r | r in s.rows && r.sub == x && r.channel == channel && RowOfOutage(s, r, k, n) && s.rows[r].status == Delivered
  }

  lemma {:induction false} DistinctIndices(rows: set<RowKey>, m: nat)
    requires forall r :: r in rows ==> r.index < m
    requires forall q, r :: q in rows && r in rows && q.index == r.index ==> q == r
    ensures |rows| <= m
  {
    if m == 0 {
      assert rows == {};
    } else if r :| r in rows && r.index == m - 1 {
      DistinctIndices(rows - {r}, m - 1);
    } else {
      DistinctIndices(rows, m - 1);
    }
  }

  /** However many openings arrive and however workers interleave: with fixed settings one outage yields at
      most one delivered row per subscription and channel in mode once, and at most repeat_count in mode
      repeat_count. */
  lemma DeliveriesPerOutage(run: seq<State>, x: SubId, settings: Subscription, i: nat, channel: Channel, k: IncidentKey, n: nat)
    requires IsRun(run) && FixedSettings(run, x, settings) && i < |run|
    requires settings.cooldown == Once || settings.cooldown == RepeatCount
    ensures |DeliveredRows(run[i], x, channel, k, n)| <= (if settings.cooldown == Once then 1 else settings.repeatCount)
  {
    RunKeepsLimits(run, x, settings, i);
    var s := run[i];
    var rows := DeliveredRows(s, x, channel, k, n);
    forall q, r | q in rows && r in rows && q.index == r.index
      ensures q == r
    {
      assert Rivals(s, x, q, r);
    }
    DistinctIndices(rows, ChainLimit(settings));
  }

  /** Consecutive deliveries of a chain are at least cooldown_seconds apart, also when retries or quiet hours
      push the later one. */
  lemma DeliveriesAreSpaced(run: seq<State>, x: SubId, settings: Subscription, i: nat, r: RowKey)
    requires IsRun(run) && FixedSettings(run, x, settings) && i < |run|
    requires r in run[i].rows && r.sub == x && r.index > 0 && run[i].rows[r].deliveredAt.Some?
    ensures var before := r.(index := r.index - 1);
      && before in run[i].rows && run[i].rows[before].deliveredAt.Some?
      && run[i].rows[before].deliveredAt.value + settings.cooldownSeconds * 1000 <= run[i].rows[r].deliveredAt.value
  {
    RunKeepsLimits(run, x, settings, i);
    assert Spaced(run[i], r, settings);
  }

  // ---------------------------------------------------------------------------
  // Quiet hours

  /** The subscription, priority and zone a row was scheduled with. */
  ghost predicate ScheduledOutside(row: Row, sub: Subscription, priority: int, offset: int) {
    priority < 5 ==> !IsQuietTime(row.nextAttemptAt, offset, sub.quietStart, sub.quietEnd)
  }

  /** Row r is new and scheduled outside the quiet hours it was created under. */
  ghost predicate BornOutsideQuietTime(s: State, s': State, r: RowKey)
    requires r in s'.rows
  {
    || (&& r.sub in s'.dir.subs && s'.dir.subs[r.sub].user in s'.dir.users && r.event in s'.events
        && var sub := s'.dir.subs[r.sub];
        ScheduledOutside(s'.rows[r], sub, EffectivePriority(sub, s'.events[r.event]), s'.dir.users[sub.user].offset))
    || (exists c :: c in s.held && NextInChain(c.row) == r && ScheduledOutside(s'.rows[r], c.sub, c.priority, c.offset))
  }

  lemma FirstRowAvoidsQuietTime(s: State, s': State, r: RowKey)
    requires r !in s.rows && r in s'.rows && FirstOfChain(s, s', r)
    ensures BornOutsideQuietTime(s, s', r)
  {
    var sub := s'.dir.subs[r.sub];
    DeferredIsLater(s'.now, EffectivePriority(sub, s'.events[r.event]), s'.dir.users[sub.user].offset, sub.quietStart, sub.quietEnd);
  }

  lemma RepeatRowAvoidsQuietTime(user: UserId, c: Claim, at: int)
    ensures ScheduledOutside(RepeatRow(user, c, at), c.sub, c.priority, c.offset)
  {
    DeferredIsLater(at + c.sub.cooldownSeconds * 1000, c.priority, c.offset, c.sub.quietStart, c.sub.quietEnd);
  }

  lemma RepeatAvoidsQuietTime(s: State, s': State, r: RowKey)
    requires r !in s.rows && r in s'.rows && Repeated(s, s', r)
    ensures BornOutsideQuietTime(s, s', r)
  {
    var c :| c in s.held && NextInChain(c.row) == r && c.row in s.rows
      && s'.rows[r] == RepeatRow(s.rows[c.row].user, c, s'.now);
    RepeatRowAvoidsQuietTime(s.rows[c.row].user, c, s'.now);
  }

  /** First schedules and repeats below priority 5 never land in quiet time. */
  lemma SchedulesAvoidQuietTime(run: seq<State>, i: nat, r: RowKey)
    requires IsRun(run) && i + 1 < |run| && r !in run[i].rows && r in run[i + 1].rows
    ensures BornOutsideQuietTime(run[i], run[i + 1], r)
  {
    RunStep(run, i);
    assert RowBorn(run[i], run[i + 1], r);
    if FirstOfChain(run[i], run[i + 1], r) {
      FirstRowAvoidsQuietTime(run[i], run[i + 1], r);
    } else {
      RepeatAvoidsQuietTime(run[i], run[i + 1], r);
    }
  }
}
