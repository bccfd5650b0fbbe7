/** Who gets a delivery and when: authorisation at claim time, what the sweeps leave, and the retry schedule
    (apps/server/src/notification-service.ts; docs/notifications.md, delivery model). */
module OutboxDelivery {
  import opened Wrappers
  import opened Incidents
  import opened QuietHours
  import opened Outbox
  import opened OutboxSteps
  import opened OutboxRuns
  import OutboxEmission

  // ---------------------------------------------------------------------------
  // Sweeps and claims, told from the tables

  /** The subscription is on, the project is on, the user is active and an administrator or member. */
  predicate Authorized(s: State, r: RowKey)
    requires r in s.rows
  {
    var user := s.rows[r].user;
    && r.event in s.events && r.sub in s.dir.subs && s.dir.subs[r.sub].enabled
    && user in s.dir.users && !s.dir.users[user].disabled && !s.dir.users[user].deleted
    && var project := s.events[r.event].project;
    && project in s.dir.projects && s.dir.projects[project]
    && (s.dir.users[user].admin || (project, user) in s.dir.members)
  }

  /** No worker is on the row: it is queued, or its lease has run out. */
  predicate Unattended(s: State, r: RowKey, now: int)
    requires r in s.rows
  {
    var row := s.rows[r];
    row.status == Pending || (row.status == Processing && row.leaseUntil.Some? && row.leaseUntil.value < now)
  }

  /** The row announces an outage that is not the current one of its incident. */
  ghost predicate OutageGone(s: State, r: RowKey) {
    r.event in s.events && s.events[r.event].lifecycle == Opened && !InCurrentOutage(s, r.event)
  }

  predicate KeepsOpenings(s: State, r: RowKey) {
    r.sub in s.dir.subs && s.dir.subs[r.sub].recovery == All
  }

  lemma OutageTest(run: seq<State>, i: nat, r: RowKey)
    requires IsRun(run) && i < |run| && r in run[i].rows
    ensures r.event in run[i].events
    ensures run[i].events[r.event].lifecycle == Opened ==> (OpenSince(run[i].incidents, run[i].events[r.event]) <==> !OutageGone(run[i], r))
  {
    RunKeepsInv(run, i);
    assert RowOk(run[i], r);
    if run[i].events[r.event].lifecycle == Opened { TimestampTestIsGenerationTest(run, i, r.event); }
  }

  /** The first sweep supersedes exactly the unattended openings whose outage is over, outside mode `all`, and
      changes nothing else. */
  lemma ResolvedSweepMeans(run: seq<State>, i: nat, r: RowKey, now: int)
    requires IsRun(run) && i < |run| && r in run[i].rows && r.sub in run[i].dir.subs
    ensures SweepResolved(run[i], now) == run[i].(now := now, rows := SweepResolved(run[i], now).rows)
    ensures SweepResolved(run[i], now).rows.Keys == run[i].rows.Keys
    ensures SweepResolved(run[i], now).rows[r] ==
      if Unattended(run[i], r, now) && OutageGone(run[i], r) && !KeepsOpenings(run[i], r)
      then run[i].rows[r].(status := Superseded, leaseUntil := None) else run[i].rows[r]
  {
    OutageTest(run, i, r);
  }

  /** The second sweep supersedes exactly the unattended rows whose owner may not receive them any more, and changes
      nothing else. */
  lemma UnauthorizedSweepMeans(run: seq<State>, i: nat, r: RowKey, now: int)
    requires IsRun(run) && i < |run| && r in run[i].rows
    ensures SweepUnauthorized(run[i], now) == run[i].(now := now, rows := SweepUnauthorized(run[i], now).rows)
    ensures SweepUnauthorized(run[i], now).rows.Keys == run[i].rows.Keys
    ensures SweepUnauthorized(run[i], now).rows[r] ==
      if Unattended(run[i], r, now) && !Authorized(run[i], r)
      then run[i].rows[r].(status := Superseded, leaseUntil := None) else run[i].rows[r]
  {
    OutageTest(run, i, r);
  }

  /** A row can be claimed exactly when it is due, unattended and authorised, and announces no outage that is over -
      except in mode `all`. */
  lemma ClaimableIff(run: seq<State>, i: nat, r: RowKey, now: int)
    requires IsRun(run) && i < |run| && r in run[i].rows
    ensures Claimable(run[i], r, now) <==>
      && run[i].rows[r].nextAttemptAt <= now && Unattended(run[i], r, now) && Authorized(run[i], r)
      && (OutageGone(run[i], r) ==> KeepsOpenings(run[i], r))
  {
    OutageTest(run, i, r);
    RunKeepsInv(run, i);
    assert RowOk(run[i], r);
  }

  /** A row that is due and that no worker is on. */
  predicate Overdue(s: State, r: RowKey, now: int) {
    r in s.rows && Unattended(s, r, now) && s.rows[r].nextAttemptAt <= now && r.sub in s.dir.subs
  }

  /** The two sweeps and the claim query are written apart but fit together: of the rows that are due and idle,
      the sweeps drop exactly those the query would never return. */
  lemma SweepsDropTheUnclaimable(run: seq<State>, i: nat, r: RowKey, now: int)
    requires IsRun(run) && i < |run| && Overdue(run[i], r, now)
    ensures Claimable(run[i], r, now)
      <==> SweepResolved(run[i], now).rows[r] == run[i].rows[r] && SweepUnauthorized(run[i], now).rows[r] == run[i].rows[r]
  {
    ClaimableIff(run, i, r, now);
    ResolvedSweepMeans(run, i, r, now);
    UnauthorizedSweepMeans(run, i, r, now);
  }

  /** A claim takes its row for sixty seconds, counts the attempt, remembers event and settings, and leaves the other
      rows alone. The row in line is one with the earliest next attempt, and among those the first created. */
  lemma ClaimMeans(s: State, r: RowKey, now: int, later: int)
    requires r in s.rows && Claimable(s, r, now)
    ensures var s', claim := TakeClaim(s, r, now, later), ClaimOf(s, r, later);
      && s'.rows == s.rows[r := s.rows[r].(status := Processing, attempts := s.rows[r].attempts + 1, leaseUntil := Some(later + 60_000))]
      && s'.held == s.held + {claim} && claim.row == r && claim.lease == later + 60_000 && claim.attempts == s'.rows[r].attempts
      && claim.event == s.events[r.event] && claim.sub == s.dir.subs[r.sub] && claim.offset == s.dir.users[s.rows[r].user].offset
      && claim.priority == (if claim.sub.deliveryPriority.Some? then claim.sub.deliveryPriority.value else claim.event.priority)
      && s' == s.(now := later, rows := s'.rows, held := s'.held, issued := s'.issued)
    ensures FirstClaimable(s, r, now) <==>
      forall q :: q in s.rows && Claimable(s, q, now) ==>
        && s.rows[r].nextAttemptAt <= s.rows[q].nextAttemptAt
        && (s.rows[r].nextAttemptAt == s.rows[q].nextAttemptAt ==> s.rows[r].createdAt <= s.rows[q].createdAt)
  {
  }

  lemma OnlyClaimsIssue(s: State, a: Action)
    requires Enabled(s, a) && !a.ClaimRow?
    ensures Apply(s, a).issued == s.issued
  {
  }

  lemma ClaimingStep(s: State, s': State)
    requires Next(s, s') && |s'.issued| > |s.issued|
    ensures var r := s'.issued[|s.issued|].row; exists now :: r in s.rows && s.now <= now && FirstClaimable(s, r, now)
  {
    var a: Action :| Enabled(s, a) && s' == Apply(s, a);
    if a.ClaimRow? {
      assert s'.issued[|s.issued|].row == a.row;
    } else {
      OnlyClaimsIssue(s, a);
    }
  }

  /** Whatever changed since the event was emitted - users disabled, members removed, projects or subscriptions
      switched off, the outage over - a worker only takes a row whose owner may receive it at that moment. */
  lemma ClaimsAreAuthorized(run: seq<State>, i: nat)
    requires IsRun(run) && i + 1 < |run| && |run[i + 1].issued| > |run[i].issued|
    ensures var r := run[i + 1].issued[|run[i].issued|].row;
      r in run[i].rows && Authorized(run[i], r) && (OutageGone(run[i], r) ==> KeepsOpenings(run[i], r))
  {
    assert Next(run[i], run[i + 1]);
    ClaimingStep(run[i], run[i + 1]);
    var r := run[i + 1].issued[|run[i].issued|].row;
    var now :| r in run[i].rows && run[i].now <= now && FirstClaimable(run[i], r, now);
    ClaimableIff(run, i, r, now);
  }

  // ---------------------------------------------------------------------------
  // Attempts

  /** How often a row has been claimed. */
  function ClaimsOf(issued: seq<Claim>, r: RowKey): nat {
    if issued == [] then 0
    else ClaimsOf(issued[..|issued| - 1], r) + (if issued[|issued| - 1].row == r then 1 else 0)
  }

  lemma {:induction false} NoClaims(issued: seq<Claim>, r: RowKey)
    requires forall i :: 0 <= i < |issued| ==> issued[i].row != r
    ensures ClaimsOf(issued, r) == 0
  {
    if issued != [] { NoClaims(issued[..|issued| - 1], r); }
  }

  ghost predicate AttemptsCounted(s: State) {
    forall r :: r in s.rows ==> s.rows[r].attempts == ClaimsOf(s.issued, r)
  }

  /** The claim this step issues, if any, is for row r. */
  ghost predicate ClaimsNow(s: State, s': State, r: RowKey) {
    |s'.issued| == |s.issued| + 1 && s'.issued[|s.issued|].row == r
  }

  lemma NewRowStep(s: State, s': State, r: RowKey)
    requires FenceOk(s) && RowsEvolve(s, s') && ClaimsEvolve(s, s') && r !in s.rows && r in s'.rows
    ensures s'.rows[r].attempts == 0 && ClaimsOf(s'.issued, r) == 0
  {
    forall i | 0 <= i < |s'.issued| ensures s'.issued[i].row != r {
      if i < |s.issued| { assert ClaimOk(s, i); }
    }
    NoClaims(s'.issued, r);
    assert RowBorn(s, s', r);
  }

  lemma OldRowStep(s: State, s': State, r: RowKey)
    requires RowsEvolve(s, s') && ClaimsEvolve(s, s') && r in s.rows
    ensures s'.rows[r].attempts == s.rows[r].attempts + (if ClaimsNow(s, s', r) then 1 else 0)
  {
    assert RowMove(s, s', r);
  }

  lemma ClaimsStep(s: State, s': State, r: RowKey)
    requires ClaimsEvolve(s, s')
    ensures ClaimsOf(s'.issued, r) == ClaimsOf(s.issued, r) + (if ClaimsNow(s, s', r) then 1 else 0)
  {
    if |s'.issued| == |s.issued| {
      assert s'.issued == s.issued;
    } else {
      assert s'.issued[..|s'.issued| - 1] == s.issued;
    }
  }

  lemma AttemptsStep(s: State, s': State, r: RowKey)
    requires Inv(s) && Evolves(s, s') && AttemptsCounted(s) && r in s'.rows
    ensures s'.rows[r].attempts == ClaimsOf(s'.issued, r)
  {
    if r in s.rows {
      OldRowStep(s, s', r);
      ClaimsStep(s, s', r);
    } else {
      NewRowStep(s, s', r);
    }
  }

  lemma StepKeepsAttempts(s: State, s': State)
    requires Inv(s) && Evolves(s, s') && AttemptsCounted(s)
    ensures AttemptsCounted(s')
  {
    forall r | r in s'.rows ensures s'.rows[r].attempts == ClaimsOf(s'.issued, r) { AttemptsStep(s, s', r); }
  }

  lemma NothingCountedYet(s: State)
    requires Initial(s)
    ensures AttemptsCounted(s)
  {
  }

  /** A row's attempt counter is the number of times it has been claimed - retries, expired leases and crashed
      workers included. */
  lemma {:induction false} AttemptsCountClaims(run: seq<State>, i: nat)
    requires IsRun(run) && i < |run|
    ensures AttemptsCounted(run[i])
  {
    if i == 0 {
      NothingCountedYet(run[0]);
    } else {
      var s, s' := run[i - 1], run[i];
      AttemptsCountClaims(run, i - 1);
      RunStep(run, i - 1);
      StepKeepsAttempts(s, s');
    }
  }

  // ---------------------------------------------------------------------------
  // Settling a claim by its provider's answer

  /** The documented waits, in minutes. */
  const WAITS: seq<int> := [1, 5, 15, 60, 360]

  /** What becomes of the row a worker still holds: superseded if it announces an outage that is over; otherwise
      delivered if the provider took it and that could be stored, failed if it could not be stored, and after the
      n-th refusal queued again for the n-th documented wait, or given up after the last. */
  ghost predicate RowSettled(s: State, s': State, claim: Claim, ok: bool, persisted: bool)
    requires claim.row in s.rows
  {
    && claim.row in s'.rows
    && var row, n := s.rows[claim.row], claim.attempts;
    && s'.rows[claim.row] ==
         if OutageGone(s, claim.row) then row.(status := Superseded, leaseUntil := None)
         else if ok && persisted then row.(status := Delivered, leaseUntil := None, deliveredAt := Some(s'.now))
         else if ok then row.(status := Failed, leaseUntil := None)
         else if 1 <= n <= |WAITS| then row.(status := Pending, leaseUntil := None, nextAttemptAt := s'.now + WAITS[n - 1] * MINUTE_MS)
         else row.(status := Failed, leaseUntil := None)
  }

  /** A delivery that is to be repeated: an opening of an open incident, outside the in-app channel, in mode
      until_recovery or short of the repeat count. */
  ghost predicate ToBeRepeated(s: State, claim: Claim) {
    && claim.row.channel != InApp && claim.event.lifecycle == Opened && claim.event.key.Some?
    && IncidentKey(claim.event.project, claim.event.key.value) in s.incidents
    && s.incidents[IncidentKey(claim.event.project, claim.event.key.value)].status == Open
    && (claim.sub.cooldown == UntilRecovery || (claim.sub.cooldown == RepeatCount && claim.row.index + 1 < claim.sub.repeatCount))
  }

  /** The repeat of a delivery: a queued row with the next index, due a cooldown later - at the first minute that is
      not quiet, unless it is an emergency. */
  ghost predicate RepeatQueued(s: State, s': State, claim: Claim)
    requires claim.row in s.rows
  {
    var next := claim.row.(index := claim.row.index + 1);
    && next in s'.rows
    && var row, due := s'.rows[next], s'.now + claim.sub.cooldownSeconds * 1000;
    && row.user == s.rows[claim.row].user && row.status == Pending && row.attempts == 0
    && row.leaseUntil == None && row.deliveredAt == None && row.createdAt == s'.now
    && (if 5 <= claim.priority then row.nextAttemptAt == due
        else OutboxEmission.FirstLoudMinute(row.nextAttemptAt, due, claim.offset, claim.sub.quietStart, claim.sub.quietEnd))
  }

  /** The whole effect of a provider's answer on the delivery table: nothing if the lease has gone to another worker;
      otherwise the row is settled by that answer, a repeat is added exactly where one is due, and no other row
      changes. */
  ghost predicate SettledBy(s: State, s': State, claim: Claim, ok: bool, persisted: bool) {
    && s' == s.(now := s'.now, held := s.held - {claim}, rows := s'.rows)
    && if !Holds(s.rows, claim) then s'.rows == s.rows
       else
         var next := claim.row.(index := claim.row.index + 1);
         && RowSettled(s, s', claim, ok, persisted)
         && (forall q :: q in s.rows && q != claim.row ==> q in s'.rows && s'.rows[q] == s.rows[q])
         && (forall q :: q in s'.rows && q !in s.rows ==> q == next)
         && next !in s.rows
         && (next in s'.rows <==> ok && persisted && !OutageGone(s, claim.row) && ToBeRepeated(s, claim))
         && (next in s'.rows ==> RepeatQueued(s, s', claim))
  }

  /** What a worker knows of the row it holds. */
  lemma HeldFacts(run: seq<State>, i: nat, claim: Claim)
    requires IsRun(run) && i < |run| && claim in run[i].held && Holds(run[i].rows, claim)
    ensures claim.row in run[i].rows && claim.row.event in run[i].events && claim.event == run[i].events[claim.row.event]
    ensures OutageOver(run[i].incidents, claim) <==> OutageGone(run[i], claim.row)
    ensures claim.event.lifecycle == Opened ==> claim.event.key.Some?
    ensures claim.row.(index := claim.row.index + 1) !in run[i].rows
  {
    RunKeepsInv(run, i);
    HeldClaimAgrees(run[i], claim);
    OutageTest(run, i, claim.row);
    assert RowOk(run[i], claim.row);
    var next := claim.row.(index := claim.row.index + 1);
    assert next.(index := next.index - 1) == claim.row;
    assert next in run[i].rows ==> LinkOk(run[i], next);
  }

  lemma StaleSettles(s: State, claim: Claim, now: int, persisted: bool)
    requires !Holds(s.rows, claim)
    ensures SettledBy(s, Finished(s, claim, now, persisted), claim, true, persisted)
    ensures SettledBy(s, FailedBy(s, claim, now), claim, false, persisted)
  {
  }

  /** When the provider has taken a message the worker's completion is what SettledBy says. */
  lemma FinishSettles(run: seq<State>, i: nat, claim: Claim, now: int, persisted: bool)
    requires IsRun(run) && i < |run| && claim in run[i].held
    ensures SettledBy(run[i], Finished(run[i], claim, now, persisted), claim, true, persisted)
  {
    var s, s' := run[i], Finished(run[i], claim, now, persisted);
    if !Holds(s.rows, claim) {
      StaleSettles(s, claim, now, persisted);
    } else {
      HeldFacts(run, i, claim);
      var due := now + claim.sub.cooldownSeconds * 1000;
      OutboxEmission.DeferredMeans(due, claim.priority, claim.offset, claim.sub.quietStart, claim.sub.quietEnd);
      FinishedRows(s, claim, now, persisted);
    }
  }

  lemma FinishedRows(s: State, claim: Claim, now: int, persisted: bool)
    requires Holds(s.rows, claim) && claim.row.(index := claim.row.index + 1) !in s.rows
    requires OutageOver(s.incidents, claim) <==> OutageGone(s, claim.row)
    requires claim.event.lifecycle == Opened ==> claim.event.key.Some?
    requires var due := now + claim.sub.cooldownSeconds * 1000;
      var deferred := Deferred(due, claim.priority, claim.offset, claim.sub.quietStart, claim.sub.quietEnd);
      if 5 <= claim.priority then deferred == due
      else OutboxEmission.FirstLoudMinute(deferred, due, claim.offset, claim.sub.quietStart, claim.sub.quietEnd)
    ensures SettledBy(s, Finished(s, claim, now, persisted), claim, true, persisted)
  {
    assert Repeating(s.incidents, claim) <==> ToBeRepeated(s, claim);
  }

  /** When the provider has refused a message the worker's failure handling is what SettledBy says. */
  lemma FailSettles(run: seq<State>, i: nat, claim: Claim, later: int)
    requires IsRun(run) && i < |run| && claim in run[i].held
    ensures SettledBy(run[i], FailedBy(run[i], claim, later), claim, false, false)
  {
    if !Holds(run[i].rows, claim) {
      StaleSettles(run[i], claim, later, false);
    } else {
      HeldFacts(run, i, claim);
      var n := claim.attempts;
      assert RetryDelaySeconds(n - 1) == if 1 <= n <= |WAITS| then Some(WAITS[n - 1] * 60) else None;
    }
  }

  // ---------------------------------------------------------------------------
  // The worker

  /** One turn of the worker: the state it started from and its two clock readings, the row it took, the state when
      the provider answered, the answer, whether it could be stored, and the state it left. */
  datatype Turn = Turn(before: State, at: int, later: int, claim: Claim, answered: State, ok: bool, persisted: bool, after: State)
  {
    /** The turn took the first claimable row, held it while the provider was asked, and settled it by the provider's
        own answer. */
    ghost predicate Sound() {
      && FirstClaimable(before, claim.row, at)
      && at <= later && claim == ClaimOf(before, claim.row, later) && Leads(TakeClaim(before, claim.row, at, later), answered)
      && claim in answered.held && answered.now <= after.now
      && SettledBy(answered, after, claim, ok, persisted)
    }
  }

  /** Sound turns that follow one another without a gap, from one state to another. */
  ghost predicate Shift(turns: seq<Turn>, start: State, end: State) {
    if turns == [] then start == end
    else
      var last := turns[|turns| - 1];
      Shift(turns[..|turns| - 1], start, last.before) && last.Sound() && last.after == end
  }

  ghost predicate NothingClaimable(s: State, at: int) {
    forall r :: r in s.rows ==> !Claimable(s, r, at)
  }

  lemma ShiftGrows(turns: seq<Turn>, start: State, turn: Turn)
    requires Shift(turns, start, turn.before) && turn.Sound()
    ensures Shift(turns + [turn], start, turn.after)
  {
    assert (turns + [turn])[..|turns|] == turns;
  }

  /** The lemmas above for a state that some run reaches. */
  lemma ReachableSettles(s: State, claim: Claim, now: int, persisted: bool)
    requires Reachable(s) && claim in s.held
    ensures SettledBy(s, Finished(s, claim, now, persisted), claim, true, persisted)
    ensures SettledBy(s, FailedBy(s, claim, now), claim, false, false)
  {
    var run :| EndsRun(run, s);
    FinishSettles(run, |run| - 1, claim, now, persisted);
    FailSettles(run, |run| - 1, claim, now);
  }
}
