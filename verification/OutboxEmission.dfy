/** What an emission does to the deliveries, told from the tables alone: who gets a row, when it is suppressed, when
    it is due, and which rows change (apps/server/src/notification-service.ts, emitNotification). */
module OutboxEmission {
  import opened Wrappers
  import opened Incidents
  import opened QuietHours
  import opened Outbox
  import OutboxSteps

  /** An accepted event about to be stored, and the row of one subscription and channel. */
  datatype Birth = Birth(s: State, id: EventId, event: Event, target: Option<UserId>, now: int, sub: SubId, channel: Channel)
  {
    ghost predicate Accepted() {
      && id !in s.events && OutboxSteps.RowsOk(s) && UpdateIncident(s.incidents, id, event).1
      && (event.lifecycle != Plain ==> event.key.Some?)
    }

    function Key(): RowKey {
      RowKey(id, sub, channel, 0)
    }

    function After(): State {
      Emit(s, id, event, target, now)
    }

    /** Row q is a delivery of the same subscription and channel, for an event of the same project and dedupe key,
        that was made, is under way, or was tried and failed. */
    predicate Same(q: RowKey) {
      && q in s.rows && q.sub == sub && q.channel == channel && q.event in s.events
      && s.events[q.event].project == event.project && s.events[q.event].key == event.key
      && s.rows[q].status != Suppressed && s.rows[q].status != Superseded
    }

    /** Such a row of an event that occurred since `since`. */
    ghost predicate OccurredSince(since: int) {
      exists q :: Same(q) && since <= s.events[q.event].occurredAt
    }

    /** Such a row delivered since `since`, or created since then and not delivered. */
    ghost predicate DeliveredSince(since: int) {
      exists q :: Same(q)
        && since <= (if s.rows[q].deliveredAt.Some? then s.rows[q].deliveredAt.value else s.rows[q].createdAt)
    }
  }

  // ---------------------------------------------------------------------------
  // Who gets a row

  lemma KeyIsNew(b: Birth)
    requires b.Accepted()
    ensures b.Key() !in b.s.rows
  {
    assert forall q :: q in b.s.rows ==> OutboxSteps.RowOk(b.s, q);
  }

  /** An accepted event has a row for a subscription and channel exactly when the subscription is enabled, names no
      other project and no other event type, does not ask for a higher priority and lists the channel, and its user
      is active, is the target if there is one, and is an administrator or a member of the project. A row belongs to
      that user, unsent and due some time later. */
  lemma RowExistsIff(b: Birth)
    requires b.Accepted()
    ensures var dir, event := b.s.dir, b.event;
      b.Key() in b.After().rows <==>
        && b.sub in dir.subs
        && var sub := dir.subs[b.sub];
        && sub.enabled && sub.minPriority <= event.priority
        && (sub.project == None || sub.project == Some(event.project))
        && (sub.eventType == None || sub.eventType == Some(event.eventType))
        && (b.target == None || b.target == Some(sub.user))
        && (exists name :: name in sub.channels && ParseChannel(name) == Some(b.channel))
        && sub.user in dir.users && !dir.users[sub.user].disabled && !dir.users[sub.user].deleted
        && (dir.users[sub.user].admin || (event.project, sub.user) in dir.members)
    ensures b.Key() in b.After().rows ==>
      var row := b.After().rows[b.Key()];
      && row.user == b.s.dir.subs[b.sub].user && row.attempts == 0 && row.leaseUntil == None && row.deliveredAt == None && row.createdAt == b.now
      && (row.status == Pending || row.status == Suppressed)
  {
    KeyIsNew(b);
  }

  /** The names of the channels. */
  lemma ChannelNames(name: string)
    ensures ParseChannel(name) == Some(InApp) <==> name == "in_app"
    ensures ParseChannel(name) == Some(Email) <==> name == "email"
    ensures ParseChannel(name) == Some(Ntfy) <==> name == "ntfy"
  {
    assert "in_app" != "email" by { assert |"in_app"| != |"email"|; }
    assert "in_app" != "ntfy" by { assert |"in_app"| != |"ntfy"|; }
    assert "email" != "ntfy" by { assert |"email"| != |"ntfy"|; }
  }

  // ---------------------------------------------------------------------------
  // Suppression

  /** Recoveries, and events without a dedupe key, are never suppressed. */
  lemma UnkeyedIsPending(b: Birth)
    requires b.Accepted() && b.Key() in b.After().rows
    requires b.event.lifecycle == Recovered || (b.event.key == None && b.event.lifecycle == Plain)
    ensures b.After().rows[b.Key()].status == Pending
  {
    KeyIsNew(b);
  }

  predicate Scoped(sub: Subscription) {
    sub.cooldown == Once || sub.cooldown == RepeatCount || sub.cooldown == UntilRecovery
  }

  /** In the modes that follow the incident an accepted opening is pending exactly when openings are wanted at all and
      nothing was delivered, is under way or has failed for the same subscription, channel, project and dedupe key
      that occurred since the outage began. */
  lemma ScopedOpeningPendingIff(b: Birth)
    requires b.Accepted() && b.Key() in b.After().rows && b.event.lifecycle == Opened && Scoped(b.s.dir.subs[b.sub])
    ensures var k := IncidentKey(b.event.project, b.event.key.value);
      && k in b.After().incidents && b.After().incidents[k].status == Open
      && (b.After().rows[b.Key()].status == Pending <==>
            b.s.dir.subs[b.sub].recovery != RecoveryOnly && !b.OccurredSince(b.After().incidents[k].openedAt))
  {
    var k := IncidentOf(b.event);
    KeyIsNew(b);
    OpeningOpens(b);
    RecentSince(b, b.s.dir.subs[b.sub].cooldown, b.After().incidents[k].openedAt);
  }

  /** Under a plain interval an accepted opening is pending exactly when openings are wanted at all and nothing for the
      same subscription, channel, project and dedupe key was delivered within the interval - or created within it,
      if not delivered. */
  lemma IntervalOpeningPendingIff(b: Birth)
    requires b.Accepted() && b.Key() in b.After().rows && b.event.lifecycle == Opened && b.s.dir.subs[b.sub].cooldown == Interval
    ensures b.After().rows[b.Key()].status == Pending <==>
      && b.s.dir.subs[b.sub].recovery != RecoveryOnly
      && !b.DeliveredSince(b.now - b.s.dir.subs[b.sub].cooldownSeconds * 1000)
  {
    KeyIsNew(b);
    RecentSince(b, Interval, b.now - b.s.dir.subs[b.sub].cooldownSeconds * 1000);
  }

  /** The same for a plain event with a dedupe key: it follows the open incident of its key if there is one, and the
      interval otherwise. */
  lemma PlainEventPendingIff(b: Birth)
    requires b.Accepted() && b.Key() in b.After().rows && b.event.lifecycle == Plain && b.event.key.Some?
    ensures var k, sub := IncidentKey(b.event.project, b.event.key.value), b.s.dir.subs[b.sub];
      var since := b.now - sub.cooldownSeconds * 1000;
      b.After().rows[b.Key()].status == Pending <==>
        if !Scoped(sub) then !b.DeliveredSince(since)
        else if k in b.s.incidents && b.s.incidents[k].status == Open then !b.OccurredSince(b.s.incidents[k].openedAt)
        else !b.OccurredSince(since)
  {
    var k, sub := IncidentOf(b.event), b.s.dir.subs[b.sub];
    KeyIsNew(b);
    RecentSince(b, sub.cooldown, Cutoff(b.s.incidents, sub, k, b.now));
  }

  lemma OpeningOpens(b: Birth)
    requires b.Accepted() && b.event.lifecycle == Opened
    ensures IsOpen(b.After().incidents, IncidentOf(b.event))
  {
  }

  /** The query of deliveryInitialStatus, told from the tables. */
  lemma RecentSince(b: Birth, mode: CooldownMode, since: int)
    requires b.Accepted() && b.event.key.Some?
    ensures var events := b.s.events[b.id := b.event];
      (exists q :: q in b.s.rows && IsRecent(events, b.s.rows, q, b.sub, b.channel, IncidentOf(b.event), mode, since))
      <==> if mode == Interval then b.DeliveredSince(since) else b.OccurredSince(since)
  {
    var events, k := b.s.events[b.id := b.event], IncidentOf(b.event);
    forall q | q in b.s.rows
      ensures IsRecent(events, b.s.rows, q, b.sub, b.channel, k, mode, since) <==>
        b.Same(q) && since <= (if mode != Interval then b.s.events[q.event].occurredAt
                               else if b.s.rows[q].deliveredAt.Some? then b.s.rows[q].deliveredAt.value else b.s.rows[q].createdAt)
    {
      assert OutboxSteps.RowOk(b.s, q);
    }
    if q :| q in b.s.rows && IsRecent(events, b.s.rows, q, b.sub, b.channel, k, mode, since) { assert b.Same(q); }
  }

  /** Rows of another subscription, channel, project or dedupe key have no say: two tables that agree on the rest
      give the new row the same status. */
  lemma OtherKeysHaveNoSay(b: Birth, rows: map<RowKey, Row>)
    requires b.Accepted() && b.Key() in b.After().rows
    requires var b' := b.(s := b.s.(rows := rows)); b'.Accepted()
    requires var b' := b.(s := b.s.(rows := rows)); forall q :: b.Same(q) || b'.Same(q) ==> q in rows && q in b.s.rows && rows[q] == b.s.rows[q]
    ensures var b' := b.(s := b.s.(rows := rows));
      b.Key() in b'.After().rows && b'.After().rows[b.Key()].status == b.After().rows[b.Key()].status
  {
    var b' := b.(s := b.s.(rows := rows));
    RowExistsIff(b);
    RowExistsIff(b');
    if b.event.lifecycle == Recovered || b.event.key == None {
      UnkeyedIsPending(b);
      UnkeyedIsPending(b');
    } else {
      KeyedRowsAgree(b, b');
    }
  }

  /** Two births of the same row over tables that agree on its own subscription, channel, project and key. */
  ghost predicate Agree(b: Birth, b': Birth) {
    && b' == b.(s := b.s.(rows := b'.s.rows)) && b.Accepted() && b'.Accepted() && b.event.lifecycle != Recovered && b.event.key.Some?
    && b.Key() in b.After().rows && b'.Key() in b'.After().rows
    && forall q :: b.Same(q) || b'.Same(q) ==> q in b'.s.rows && q in b.s.rows && b'.s.rows[q] == b.s.rows[q]
  }

  lemma KeyedRowsAgree(b: Birth, b': Birth)
    requires Agree(b, b')
    ensures b'.After().rows[b.Key()].status == b.After().rows[b.Key()].status
  {
    KeyIsNew(b);
    KeyIsNew(b');
    if b.event.lifecycle == Plain {
      PlainRowsAgree(b, b');
    } else if b.s.dir.subs[b.sub].cooldown == Interval {
      IntervalRowsAgree(b, b');
    } else {
      ScopedRowsAgree(b, b');
    }
  }

  lemma PlainRowsAgree(b: Birth, b': Birth)
    requires Agree(b, b') && b.event.lifecycle == Plain
    ensures b'.After().rows[b.Key()].status == Pending <==> b.After().rows[b.Key()].status == Pending
  {
    forall since ensures b.OccurredSince(since) <==> b'.OccurredSince(since) { SameAnswer(b, b', since); }
    forall since ensures b.DeliveredSince(since) <==> b'.DeliveredSince(since) { SameAnswer(b, b', since); }
    PlainEventPendingIff(b);
    PlainEventPendingIff(b');
  }

  lemma IntervalRowsAgree(b: Birth, b': Birth)
    requires Agree(b, b') && b.event.lifecycle == Opened && b.s.dir.subs[b.sub].cooldown == Interval
    ensures b'.After().rows[b.Key()].status == Pending <==> b.After().rows[b.Key()].status == Pending
  {
    SameAnswer(b, b', b.now - b.s.dir.subs[b.sub].cooldownSeconds * 1000);
    IntervalOpeningPendingIff(b);
    IntervalOpeningPendingIff(b');
  }

  lemma ScopedRowsAgree(b: Birth, b': Birth)
    requires Agree(b, b') && b.event.lifecycle == Opened && Scoped(b.s.dir.subs[b.sub])
    ensures b'.After().rows[b.Key()].status == Pending <==> b.After().rows[b.Key()].status == Pending
  {
    forall since ensures b.OccurredSince(since) <==> b'.OccurredSince(since) { SameAnswer(b, b', since); }
    ScopedOpeningPendingIff(b);
    ScopedOpeningPendingIff(b');
  }

  lemma SameAnswer(b: Birth, b': Birth, since: int)
    requires b' == b.(s := b.s.(rows := b'.s.rows))
    requires forall q :: b.Same(q) || b'.Same(q) ==> q in b'.s.rows && q in b.s.rows && b'.s.rows[q] == b.s.rows[q]
    ensures b.OccurredSince(since) <==> b'.OccurredSince(since)
    ensures b.DeliveredSince(since) <==> b'.DeliveredSince(since)
  {
    if q :| b.Same(q) && since <= b.s.events[q.event].occurredAt { assert b'.Same(q); }
    if q :| b'.Same(q) && since <= b.s.events[q.event].occurredAt { assert b.Same(q); }
    if q :| b.Same(q) && since <= (if b.s.rows[q].deliveredAt.Some? then b.s.rows[q].deliveredAt.value else b.s.rows[q].createdAt) {
      assert b'.Same(q);
    }
    if q :| b'.Same(q) && since <= (if b'.s.rows[q].deliveredAt.Some? then b'.s.rows[q].deliveredAt.value else b'.s.rows[q].createdAt) {
      assert b.Same(q);
    }
  }

  // ---------------------------------------------------------------------------
  // When a row is due

  /** `t` is the first instant, a whole number of minutes after `from`, that is not quiet. */
  ghost predicate FirstLoudMinute(t: int, from: int, offset: int, start: Option<ClockMinute>, end: Option<ClockMinute>) {
    exists n: nat :: t == from + n * MINUTE_MS && !IsQuietTime(t, offset, start, end)
      && forall d: nat :: d < n ==> IsQuietTime(from + d * MINUTE_MS, offset, start, end)
  }

  /** Deferral: an emergency goes out at once, anything else at the first minute that is not quiet. */
  lemma DeferredMeans(t: int, priority: int, offset: int, start: Option<ClockMinute>, end: Option<ClockMinute>)
    ensures 5 <= priority ==> Deferred(t, priority, offset, start, end) == t
    ensures priority < 5 ==> FirstLoudMinute(Deferred(t, priority, offset, start, end), t, offset, start, end)
  {
    if priority < 5 {
      if IsQuietTime(t, offset, start, end) {
        QuietEndIsFirst(t, offset, start.value, end.value);
        var n := MinutesToQuietEnd(t, offset, start.value, end.value);
        assert Deferred(t, priority, offset, start, end) == t + n * MINUTE_MS;
        forall d: nat | d < n ensures IsQuietTime(t + d * MINUTE_MS, offset, start, end) {
          if d == 0 { assert t + d * MINUTE_MS == t; }
        }
      } else {
        assert t == t + 0 * MINUTE_MS;
      }
    }
  }

  /** A new row is due now if it is an emergency, and at the first minute of its user's zone that is not quiet
      otherwise; the subscription's own priority counts before that of the event. */
  lemma FirstRowIsDue(b: Birth)
    requires b.Accepted() && b.Key() in b.After().rows
    ensures b.sub in b.s.dir.subs && b.s.dir.subs[b.sub].user in b.s.dir.users
    ensures var sub := b.s.dir.subs[b.sub];
      var due, offset := b.After().rows[b.Key()].nextAttemptAt, b.s.dir.users[sub.user].offset;
      var priority := if sub.deliveryPriority.Some? then sub.deliveryPriority.value else b.event.priority;
      if 5 <= priority then due == b.now else FirstLoudMinute(due, b.now, offset, sub.quietStart, sub.quietEnd)
  {
    RowExistsIff(b);
    var sub := b.s.dir.subs[b.sub];
    var priority := if sub.deliveryPriority.Some? then sub.deliveryPriority.value else b.event.priority;
    DeferredMeans(b.now, priority, b.s.dir.users[sub.user].offset, sub.quietStart, sub.quietEnd);
  }

  // ---------------------------------------------------------------------------
  // Which rows change

  /** A queued opening of the project and dedupe key of a recovery, for the same user, subscription and channel as a
      row of that recovery. */
  ghost predicate Replaced(s: State, s': State, r: RowKey, id: EventId, event: Event) {
    && event.lifecycle == Recovered && r in s.rows && s.rows[r].status == Pending && r.event in s.events
    && s.events[r.event].lifecycle == Opened && s.events[r.event].project == event.project && s.events[r.event].key == event.key
    && r.sub in s.dir.subs && s.dir.subs[r.sub].recovery == Merged
    && RowKey(id, r.sub, r.channel, 0) in s'.rows && s'.rows[RowKey(id, r.sub, r.channel, 0)].user == s.rows[r].user
  }

  /** No row disappears, and a row changes exactly if it is a queued opening replaced by a row of this recovery; it is
      superseded then. Every other new row is one of the event's. */
  lemma EmissionChangesOnly(s: State, id: EventId, event: Event, target: Option<UserId>, now: int, r: RowKey)
    requires id !in s.events && OutboxSteps.RowsOk(s) && (event.lifecycle != Plain ==> event.key.Some?)
    ensures var s' := Emit(s, id, event, target, now);
      && (r in s.rows ==> r in s'.rows)
      && (r in s.rows && Replaced(s, s', r, id, event) ==> s'.rows[r] == s.rows[r].(status := Superseded, leaseUntil := None))
      && (r in s.rows && !Replaced(s, s', r, id, event) ==> s'.rows[r] == s.rows[r])
      && (r in s'.rows && r !in s.rows ==> r.event == id && r.index == 0)
  {
    assert r in s.rows ==> OutboxSteps.RowOk(s, r);
    var key := RowKey(id, r.sub, r.channel, 0);
    assert key in s.rows ==> OutboxSteps.RowOk(s, key);
  }

  /** A report that may not notify changes no row at all. */
  lemma SilentReportChangesNoRow(s: State, id: EventId, event: Event, target: Option<UserId>, now: int)
    requires !UpdateIncident(s.incidents, id, event).1
    ensures Emit(s, id, event, target, now).rows == s.rows
  {
  }
}
