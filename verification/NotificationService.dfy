/** The notification service over its tables, method by method, each proved to take exactly the
    step of the Outbox machine it stands for (apps/server/src/notification-service.ts). */
module NotificationService {
  import opened Wrappers
  import opened Outside
  import opened Incidents
  import opened QuietHours
  import opened Outbox
  import opened OutboxRuns
  import opened OutboxDelivery
  import opened FanOutLoop
  import OutboxSteps

  lemma EmitFieldByField(s: State, s': State, id: EventId, event: Event, target: Option<UserId>, at: int, accepted: bool)
    requires accepted == Outbox.UpdateIncident(s.incidents, id, event).1
    requires OutboxSteps.EmitTables(s, s', id, event)
    requires s'.now == at && s'.dir == s.dir && s'.held == s.held && s'.issued == s.issued
    requires s'.rows == if accepted then EmitRows(s'.incidents, s'.events, s.rows, s.dir, id, event, target, at) else s.rows
    ensures s' == Emit(s, id, event, target, at)
  {
  }

  lemma EmitTablesIgnoreRows(s: State, mid: State, after: State, id: EventId, event: Event)
    requires OutboxSteps.EmitTables(s, mid, id, event) && after == mid.(rows := after.rows)
    ensures OutboxSteps.EmitTables(s, after, id, event)
  {
  }

  class NotificationStore {
    /** Whether the provider takes the message of a claim, and whether its completion can be stored; no two claims
        are alike, so any answers are possible. */
    const takes: Claim -> bool
    const stores: Claim -> bool

    var dir: Directory
    var events: map<EventId, Event>
    var incidents: map<IncidentKey, Incident>
    var rows: map<RowKey, Row>

    /** The last instant the service has seen. */
    var now: int

    ghost var held: set<Claim>
    ghost var issued: seq<Claim>
    ghost var outages: map<IncidentKey, nat>
    ghost var outage: map<EventId, nat>

    ghost function Tables(): State
      reads this
    {
      State(now, dir, events, incidents, rows, held, issued, outages, outage)
    }

    /** The tables are in a state that some run of the machine reaches, so every theorem about runs
        applies to them. */
    ghost predicate Valid()
      reads this
    {
      Reachable(Tables())
    }

    constructor (dir: Directory, clock: int, takes: Claim -> bool, stores: Claim -> bool)
      ensures Valid() && Initial(Tables()) && this.dir == dir && now == clock && this.takes == takes && this.stores == stores
    {
      this.dir, this.takes, this.stores := dir, takes, stores;
      events, incidents, rows := map[], map[], map[];
      now, held, issued, outages, outage := clock, {}, [], map[], map[];
      new;
      InitialIsReachable(Tables());
    }

    /** updateIncident: whether the event may be delivered. */
    method UpdateIncident(id: EventId, event: Event) returns (accepted: bool)
      modifies `incidents
      ensures incidents == Outbox.UpdateIncident(old(incidents), id, event).0
      ensures accepted == Outbox.UpdateIncident(old(incidents), id, event).1
    {
      if event.key.None? || event.lifecycle == Plain {
        return true;
      }
      var k, at := IncidentOf(event), event.occurredAt;
      var current := Lookup(incidents, k);
      assert k in incidents ==> incidents[k := incidents[k]] == incidents;
      if event.lifecycle == Opened {
        if current.Some? && current.value.status == Open {
          if at < current.value.LastOpened() {
            return false;
          }
          incidents := incidents[k := current.value.(openedEvent := id, lastOpenedAt := Some(at))];
          return true;
        }
        if current.Some? && at <= current.value.Closing() {
          return false;
        }
        var upsert := UpsertOpened(current, id, at);
        incidents := incidents[k := upsert.row.value];
        return upsert.changed;
      } else {
        if current.Some? && current.value.status == Resolved {
          if at > current.value.Closing() {
            incidents := incidents[k := current.value.(resolvedEvent := Some(id), resolvedAt := Some(at))];
          }
          return false;
        }
        if current.Some? && at < current.value.LastOpened() {
          return false;
        }
        var upsert := UpsertResolved(current, id, at);
        incidents := incidents[k := upsert.row.value];
        return upsert.changed;
      }
    }

    // -------------------------------------------------------------------------
    // Emission

    /** supersedePendingIncidentDeliveries */
    method SupersedePending(e: Emitting, sub: SubId, channel: Channel)
      requires sub in e.dir.subs
      modifies `rows
      ensures rows == e.WithoutPending(old(rows), sub, channel)
    {
      rows := map r | r in rows :: if e.PendingOpening(rows, r, sub, channel) then Drop(rows[r]) else rows[r];
    }

    /** The body of the loops: the row of one matching subscription and channel. */
    method CreateDelivery(e: Emitting, r: RowKey)
      requires r.sub in e.dir.subs && e.dir.subs[r.sub].user in e.dir.users
      modifies `rows
      ensures rows == e.TurnTable(old(rows), r)
    {
      var s := e.dir.subs[r.sub];
      var status := InitialStatus(e.incidents, e.events, rows, r.sub, s, r.channel, e.event, e.at);
      if e.event.lifecycle == Opened && s.recovery == RecoveryOnly {
        status := Suppressed;
      }
      var offset, next := e.dir.users[s.user].offset, e.at;
      if EffectivePriority(s, e.event) < 5 && IsQuietTime(next, offset, s.quietStart, s.quietEnd) {
        next := NextQuietEnd(next, offset, s.quietStart.value, s.quietEnd.value);
      }
      if e.Merges(r.sub) {
        SupersedePending(e, r.sub, r.channel);
      }
      rows := rows[r := Row(s.user, status, 0, next, None, None, e.at)];
    }

    method CreateNext(e: Emitting, r: RowKey, ghost before: map<RowKey, Row>, ghost order: seq<RowKey>) returns (ghost longer: seq<RowKey>)
      requires e.Ordering(order) && rows == e.Fold(before, order)
      requires r !in order && r.event == e.id && r.index == 0 && e.Reaches(r.sub, r.channel)
      modifies `rows
      ensures longer == order + [r] && e.Ordering(longer) && rows == e.Fold(before, longer)
    {
      CreateDelivery(e, r);
      e.AppendTurn(before, order, r);
      longer := order + [r];
    }

    /** The inner loop, over the channels of one subscription. */
    method CreateForSubscription(e: Emitting, sub: SubId, ghost before: map<RowKey, Row>, ghost start: seq<RowKey>)
      returns (count: nat, ghost order: seq<RowKey>)
      requires sub in e.Matching() && e.Ordering(start) && rows == e.Fold(before, start)
      requires forall r :: r in start ==> r.sub != sub
      modifies `rows
      ensures e.Ordering(order) && rows == e.Fold(before, order) && count == |order| - |start|
      ensures forall r :: r in order ==> r in start || r.sub == sub
      ensures forall r :: r in start || (r in e.Pairs() && r.sub == sub) ==> r in order
    {
      var channels := NormalizeChannels(e.dir.subs[sub].channels);
      count, order := 0, start;
      for i := 0 to |channels|
        invariant e.Ordering(order) && rows == e.Fold(before, order)
        invariant count == i && order == start + e.KeysFor(sub, channels[..i])
      {
        e.NextKey(start, sub, channels, i);
        order := CreateNext(e, RowKey(e.id, sub, channels[i], 0), before, order);
        count := count + 1;
      }
      assert channels[..|channels|] == channels;
      e.KeysForMembers(sub, channels);
      forall r | r in e.Pairs() && r.sub == sub ensures r in order { e.PairOfChannel(r); }
    }

    /** The outer loop, over the matching subscriptions. */
    method CreateDeliveries(e: Emitting) returns (deliveries: nat)
      requires e.Fresh(rows)
      modifies `rows
      ensures rows == EmitRows(e.incidents, e.events, old(rows), e.dir, e.id, e.event, e.target, e.at)
      ensures deliveries == |e.Pairs()|
    {
      ghost var before := rows;
      ghost var order: seq<RowKey> := [];
      deliveries := 0;
      var todo := e.Matching();
      while todo != {}
        invariant todo <= e.Matching()
        invariant e.Ordering(order) && rows == e.Fold(before, order) && deliveries == |order|
        invariant forall r :: r in order ==> r.sub !in todo
        invariant forall r :: r in e.Pairs() && r.sub !in todo ==> r in order
        decreases todo
      {
        var sub :| sub in todo;
        var count;
        count, order := CreateForSubscription(e, sub, before, order);
        deliveries := deliveries + count;
        todo := todo - {sub};
      }
      e.OrderDoesNotMatter(before, order);
    }

    method DeliverTo(id: EventId, event: Event, target: Option<UserId>, at: int) returns (deliveries: nat)
      requires forall r :: r in rows ==> r.event != id
      modifies `rows
      ensures rows == EmitRows(incidents, events, old(rows), dir, id, event, target, at)
      ensures deliveries == |FanOut(dir, id, event, target)|
    {
      deliveries := CreateDeliveries(Emitting(incidents, events, dir, id, event, target, at));
    }

    /** The event row and the incident. */
    method Admit(id: EventId, event: Event, at: int) returns (accepted: bool)
      modifies `events, `incidents, `now, `outages, `outage
      ensures OutboxSteps.EmitTables(old(Tables()), Tables(), id, event)
      ensures now == at && accepted == Outbox.UpdateIncident(old(incidents), id, event).1
    {
      ghost var before := incidents;
      events := events[id := event];
      accepted := UpdateIncident(id, event);
      now := at;
      if accepted && event.lifecycle == Opened && event.key.Some? {
        ghost var n := OutageNumber(before, outages, IncidentOf(event));
        outages, outage := outages[IncidentOf(event) := n], outage[id := n];
      }
    }

    method DeliverAccepted(accepted: bool, id: EventId, event: Event, target: Option<UserId>, at: int) returns (deliveries: nat)
      requires forall r :: r in rows ==> r.event != id
      modifies `rows
      ensures rows == if accepted then EmitRows(incidents, events, old(rows), dir, id, event, target, at) else old(rows)
      ensures deliveries == if accepted then |FanOut(dir, id, event, target)| else 0
    {
      deliveries := 0;
      if accepted {
        deliveries := DeliverTo(id, event, target, at);
      }
    }

    method RecordTables(id: EventId, event: Event, target: Option<UserId>, at: int) returns (deliveries: nat, ghost admitted: bool)
      requires forall r :: r in rows ==> r.event != id
      modifies this
      ensures admitted == Outbox.UpdateIncident(old(incidents), id, event).1
      ensures OutboxSteps.EmitTables(old(Tables()), Tables(), id, event)
      ensures now == at && dir == old(dir) && held == old(held) && issued == old(issued)
      ensures rows == if admitted then EmitRows(incidents, events, old(rows), dir, id, event, target, at) else old(rows)
      ensures deliveries == if admitted then |FanOut(dir, id, event, target)| else 0
    {
      ghost var before := Tables();
      var accepted := Admit(id, event, at);
      ghost var mid := Tables();
      admitted := accepted;
      deliveries := DeliverAccepted(accepted, id, event, target, at);
      EmitTablesIgnoreRows(before, mid, Tables(), id, event);
    }

    /** The insertions of one transaction, once the call has been found to be new. */
    method Record(id: EventId, event: Event, target: Option<UserId>, at: int) returns (deliveries: nat)
      requires forall r :: r in rows ==> r.event != id
      modifies this
      ensures Tables() == Emit(old(Tables()), id, event, target, at)
      ensures deliveries == if Outbox.UpdateIncident(old(incidents), id, event).1 then |FanOut(dir, id, event, target)| else 0
    {
      ghost var before := Tables();
      ghost var accepted;
      deliveries, accepted := RecordTables(id, event, target, at);
      EmitFieldByField(before, Tables(), id, event, target, at, accepted);
    }

    lemma RowsHaveEvents()
      requires Valid()
      ensures forall r :: r in rows ==> r.event in events
    {
      ReachableHasInv(Tables());
      assert forall r :: r in rows ==> OutboxSteps.RowOk(Tables(), r);
    }

    // -------------------------------------------------------------------------
    // Sweeps and claims

    method DropResolved(at: int)
      modifies `rows, `now
      ensures Tables() == SweepResolved(old(Tables()), at)
    {
      rows := map r | r in rows ::
        if Idle(rows[r], at)
           && (r.event in events && events[r.event].lifecycle == Opened
               && r.sub in dir.subs && dir.subs[r.sub].recovery != All
               && !OpenSince(incidents, events[r.event]))
        then Drop(rows[r]) else rows[r];
      now := at;
    }

    /** supersedeResolvedIncidentDeliveries */
    method SupersedeResolved(at: int)
      requires Valid() && now <= at
      modifies this
      ensures Tables() == SweepResolved(old(Tables()), at) && Valid() && Next(old(Tables()), Tables())
    {
      TakeSweeps(Tables(), at);
      DropResolved(at);
    }

    method DropUnauthorized(at: int)
      modifies `rows, `now
      ensures Tables() == SweepUnauthorized(old(Tables()), at)
    {
      rows := map r | r in rows ::
        if Idle(rows[r], at)
           && (!UserActive(dir, rows[r].user)
               || !(r.event in events && ProjectEnabled(dir, events[r.event].project))
               || !(r.sub in dir.subs && dir.subs[r.sub].enabled)
               || (r.event in events && rows[r].user in dir.users && !MayRead(dir, events[r.event].project, rows[r].user)))
        then Drop(rows[r]) else rows[r];
      now := at;
    }

    /** supersedeUnauthorizedDeliveries */
    method SupersedeUnauthorized(at: int)
      requires Valid() && now <= at
      modifies this
      ensures Tables() == SweepUnauthorized(old(Tables()), at) && Valid() && Next(old(Tables()), Tables())
    {
      TakeSweeps(Tables(), at);
      DropUnauthorized(at);
    }

    /** The conditions of the claim query. */
    predicate MayClaim(r: RowKey, at: int)
      reads this
      requires r in rows
      ensures MayClaim(r, at) == Claimable(Tables(), r, at)
    {
      var row := rows[r];
      && r.event in events && r.sub in dir.subs
      && ProjectEnabled(dir, events[r.event].project)
      && UserActive(dir, row.user)
      && dir.subs[r.sub].enabled
      && (row.status == Pending || row.status == Processing)
      && row.nextAttemptAt <= at
      && MayRead(dir, events[r.event].project, row.user)
      && (events[r.event].lifecycle != Opened || dir.subs[r.sub].recovery == All || OpenSince(incidents, events[r.event]))
      && (row.leaseUntil.None? || row.leaseUntil.value < at)
    }

    /** The query of claimDelivery, ORDER BY next_attempt_at, created_at LIMIT 1. */
    method FirstCandidate(at: int) returns (candidate: Option<RowKey>)
      ensures candidate.Some? ==> FirstClaimable(Tables(), candidate.value, at)
      ensures candidate.None? ==> forall r :: r in rows ==> !Claimable(Tables(), r, at)
    {
      candidate := None;
      var todo := rows.Keys;
      while todo != {}
        invariant todo <= rows.Keys
        invariant candidate.None? ==> forall r :: r in rows && r !in todo ==> !Claimable(Tables(), r, at)
        invariant candidate.Some? ==> candidate.value in rows && Claimable(Tables(), candidate.value, at)
        invariant candidate.Some? ==>
          forall r :: r in rows && r !in todo && Claimable(Tables(), r, at) ==> Before(rows[candidate.value], rows[r])
        decreases todo
      {
        var r :| r in todo;
        todo := todo - {r};
        if MayClaim(r, at) && (candidate.None? || !Before(rows[candidate.value], rows[r])) {
          candidate := Some(r);
        }
      }
    }

    /** claimDelivery: the claim of the first due row, if any, as one action of the machine. */
    method ClaimDelivery(at: int, later: int) returns (claim: Option<Claim>)
      requires Valid() && now <= at <= later
      modifies this
      ensures claim.None? ==> Tables() == old(Tables()) && forall r :: r in rows ==> !Claimable(Tables(), r, at)
      ensures claim.Some? ==>
        && FirstClaimable(old(Tables()), claim.value.row, at)
        && Tables() == TakeClaim(old(Tables()), claim.value.row, at, later)
        && claim.value in held && claim.value == ClaimOf(old(Tables()), claim.value.row, later) && Next(old(Tables()), Tables())
      ensures Valid()
    {
      var candidate := FirstCandidate(at);
      if candidate.None? {
        return None;
      }
      var r := candidate.value;
      TakeClaimRow(Tables(), r, at, later);
      var taken := Lease(r, at, later);
      return Some(taken);
    }

    method Lease(r: RowKey, at: int, later: int) returns (claim: Claim)
      requires r in rows && Claimable(Tables(), r, at)
      modifies `rows, `now, `held, `issued
      ensures claim == ClaimOf(old(Tables()), r, later) && Tables() == TakeClaim(old(Tables()), r, at, later)
    {
      var row, event, sub := rows[r], events[r.event], dir.subs[r.sub];
      var leaseUntil := later + LEASE_MS;
      rows := rows[r := row.(status := Processing, attempts := row.attempts + 1, leaseUntil := Some(leaseUntil))];
      claim := Claim(r, leaseUntil, row.attempts + 1, event, sub, EffectivePriority(sub, event), dir.users[row.user].offset);
      now := later;
      held, issued := held + {claim}, issued + [claim];
    }

    // -------------------------------------------------------------------------
    // After the provider has answered

    /** scheduleRepeat */
    method InsertRepeat(claim: Claim, deliveredAt: int)
      requires claim.row in rows
      modifies `rows
      ensures rows == ScheduleRepeat(incidents, old(rows), claim, deliveredAt)
    {
      if claim.row.channel == InApp || claim.event.lifecycle != Opened || claim.event.key.None? {
        return;
      }
      var next := NextInChain(claim.row);
      var bounded := claim.sub.cooldown == RepeatCount && next.index < claim.sub.repeatCount;
      if !bounded && claim.sub.cooldown != UntilRecovery {
        return;
      }
      if !IsOpen(incidents, IncidentOf(claim.event)) {
        return;
      }
      var due := deliveredAt + claim.sub.cooldownSeconds * 1000;
      if claim.priority < 5 && IsQuietTime(due, claim.offset, claim.sub.quietStart, claim.sub.quietEnd) {
        due := NextQuietEnd(due, claim.offset, claim.sub.quietStart.value, claim.sub.quietEnd.value);
      }
      if next !in rows {
        rows := rows[next := Row(rows[claim.row].user, Pending, 0, due, None, None, deliveredAt)];
      }
    }

    method AbandonRow(claim: Claim)
      modifies `rows
      ensures rows == Abandon(old(rows), claim)
    {
      if Holds(rows, claim) {
        rows := rows[claim.row := Drop(rows[claim.row])];
      }
    }

    method GiveUpRow(claim: Claim)
      modifies `rows
      ensures rows == GiveUp(old(rows), claim)
    {
      if Holds(rows, claim) {
        rows := rows[claim.row := rows[claim.row].(status := Failed, leaseUntil := None)];
      }
    }

    /** The completing transaction; `persisted` is false when it fails and is rolled back. */
    method CompleteRow(claim: Claim, at: int, persisted: bool)
      modifies `rows
      ensures rows == FinishRows(incidents, old(rows), claim, at, persisted)
    {
      if claim.event.lifecycle == Opened && claim.event.key.Some? && !OpenSince(incidents, claim.event) {
        AbandonRow(claim);
        return;
      }
      var saved, completed := rows, Holds(rows, claim);
      if completed {
        rows := rows[claim.row := MarkDelivered(rows[claim.row], at)];
        InsertRepeat(claim, at);
      }
      if !completed || !persisted {
        rows := saved;
        GiveUpRow(claim);
      }
    }

    method FinishDelivery(claim: Claim, at: int, persisted: bool)
      requires Valid() && claim in held && now <= at
      modifies this
      ensures Tables() == Finished(old(Tables()), claim, at, persisted) && Valid() && Next(old(Tables()), Tables())
    {
      TakeFinish(Tables(), claim, at, persisted);
      CompleteRow(claim, at, persisted);
      now, held := at, held - {claim};
    }

    method RetryRow(claim: Claim, later: int)
      modifies `rows
      ensures rows == FailRows(incidents, old(rows), claim, later)
    {
      if claim.event.lifecycle == Opened && claim.event.key.Some? && !OpenSince(incidents, claim.event) {
        AbandonRow(claim);
        return;
      }
      var delay := RetryDelaySeconds(claim.attempts - 1);
      if delay.None? {
        GiveUpRow(claim);
      } else if Holds(rows, claim) {
        rows := rows[claim.row :=
          rows[claim.row].(status := Pending, leaseUntil := None, nextAttemptAt := later + delay.value * 1000)];
      }
    }

    /** failDelivery */
    method FailDelivery(claim: Claim, at: int, later: int)
      requires Valid() && claim in held && now <= at <= later
      modifies this
      ensures Tables() == FailedBy(old(Tables()), claim, later) && Valid() && Next(old(Tables()), Tables())
    {
      TakeFail(Tables(), claim, at, later);
      RetryRow(claim, later);
      now, held := later, held - {claim};
    }

    // -------------------------------------------------------------------------
    // The worker

    /** The provider call. While it is awaited other code may take any actions that leave this worker's
        claim alone; callers know nothing more than what is ensured here. */
    method AwaitProvider(claim: Claim) returns (ok: bool)
      requires Valid() && claim in held
      modifies this
      ensures Valid() && claim in held && Leads(old(Tables()), Tables())
      ensures ok == takes(claim)
    {
      LeadsNowhere(Tables());
      ok := takes(claim);
    }

    /** processDeliveries: both sweeps, then up to `limit` turns, each of which takes the first claimable row and
        settles it by its own provider's answer; it stops early only when nothing is claimable. Whatever happens during
        the awaits, the worker only ever takes actions of the machine. */
    method ProcessDeliveries(limit: nat) returns (ghost turns: seq<Turn>, ghost swept: State, ghost at: int)
      requires Valid()
      modifies this
      ensures Valid() && Leads(old(Tables()), Tables())
      ensures exists first, second :: old(now) <= first <= second
                && swept == SweepUnauthorized(SweepResolved(old(Tables()), first), second)
      ensures Shift(turns, swept, Tables()) && |turns| <= limit
      ensures forall t :: t in turns ==> Answered(t)
      ensures |turns| < limit ==> now <= at && NothingClaimable(Tables(), at)
    {
      ghost var start := Tables();
      Sweep();
      swept := Tables();
      LeadsNowhere(swept);
      turns, at := [], now;
      for count := 0 to limit
        invariant Valid() && Leads(start, Tables()) && Shift(turns, swept, Tables()) && |turns| == count
        invariant forall t :: t in turns ==> Answered(t)
      {
        var done;
        ghost var turn;
        done, turn, at := DeliverOne(start);
        if done {
          return;
        }
        ShiftGrows(turns, swept, turn.value);
        turns := turns + [turn.value];
      }
    }

    /** The turn went by the provider's answer and the database's. */
    ghost predicate Answered(t: Turn) {
      t.ok == takes(t.claim) && t.persisted == (t.ok && stores(t.claim))
    }

    method Sweep()
      requires Valid()
      modifies this
      ensures Valid() && Leads(old(Tables()), Tables())
      ensures exists first, second :: old(now) <= first <= second
                && Tables() == SweepUnauthorized(SweepResolved(old(Tables()), first), second)
    {
      ghost var start := Tables();
      LeadsNowhere(start);
      var first := ReadClock(now);
      SupersedeResolved(first);
      LeadsOn(start, start, Tables());
      ghost var swept := Tables();
      var second := ReadClock(now);
      SupersedeUnauthorized(second);
      LeadsOn(start, swept, Tables());
    }

    /** One turn of the worker loop; `done` when nothing is claimable. */
    method DeliverOne(ghost start: State) returns (done: bool, ghost turn: Option<Turn>, ghost clock: int)
      requires Valid() && Leads(start, Tables())
      modifies this
      ensures Valid() && Leads(start, Tables())
      ensures old(now) <= clock && (done <==> NothingClaimable(old(Tables()), clock)) && (done <==> turn.None?)
      ensures done ==> Tables() == old(Tables())
      ensures !done ==>
        && turn.value.Sound() && turn.value.before == old(Tables()) && turn.value.at == clock && turn.value.after == Tables()
        && Answered(turn.value)
    {
      ghost var before := Tables();
      var at := ReadClock(now);
      clock := at;
      var later := ReadClock(at);
      var claim := ClaimDelivery(at, later);
      if claim.None? {
        return true, None, clock;
      }
      LeadsOn(start, before, Tables());
      ghost var claimed := Tables();
      var ok := AwaitProvider(claim.value);
      LeadsTogether(start, claimed, Tables());
      ghost var answered := Tables();
      at := ReadClock(now);
      Settle(claim.value, ok, at);
      LeadsOn(start, answered, Tables());
      turn := Some(Turn(before, clock, later, claim.value, answered, ok, ok && stores(claim.value), Tables()));
      done := false;
    }

    /** After the await: completion if the provider took the message, failure handling if it threw. */
    method Settle(claim: Claim, ok: bool, at: int)
      requires Valid() && claim in held && now <= at
      modifies this
      ensures Valid() && Next(old(Tables()), Tables()) && old(now) <= now
      ensures SettledBy(old(Tables()), Tables(), claim, ok, ok && stores(claim))
    {
      ghost var answered := Tables();
      if ok {
        var persisted := stores(claim);
        ReachableSettles(answered, claim, at, persisted);
        FinishDelivery(claim, at, persisted);
      } else {
        var later := ReadClock(at);
        ReachableSettles(answered, claim, later, false);
        FailDelivery(claim, at, later);
      }
    }
  }
}
