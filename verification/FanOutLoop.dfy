/** The nested loops of emitNotification, one delivery at a time, and why their order does not matter
    (apps/server/src/notification-service.ts). */
module FanOutLoop {
  import opened Wrappers
  import opened Incidents
  import opened QuietHours
  import opened Outbox

  /** An accepted event in the middle of its transaction: the tables its fan-out reads but does not change. */
  datatype Emitting = Emitting(
    incidents: map<IncidentKey, Incident>, events: map<EventId, Event>, dir: Directory,
    id: EventId, event: Event, target: Option<UserId>, at: int)
  {
    function Pairs(): set<RowKey> {
      FanOut(dir, id, event, target)
    }

    function Matching(): set<SubId> {
      set s | s in dir.subs && Matches(dir, dir.subs[s], event, target)
    }

    ghost predicate Fresh(table: map<RowKey, Row>) {
      forall r :: r in table ==> r.event != id
    }

    /** A pair that a new row can be made for. */
    predicate Addressable(r: RowKey) {
      r.event == id && r.index == 0 && r.sub in dir.subs && dir.subs[r.sub].user in dir.users
    }

    predicate Reaches(sub: SubId, channel: Channel) {
      sub in dir.subs && Matches(dir, dir.subs[sub], event, target) && channel in NormalizeChannels(dir.subs[sub].channels)
    }

    /** The delivery table when the pairs in `done` have been handled. */
    function SoFar(before: map<RowKey, Row>, done: set<RowKey>): map<RowKey, Row>
      requires forall r :: r in done ==> Addressable(r)
    {
      map r | r in before.Keys + done ::
        if r in done then assert Addressable(r); NewRow(incidents, events, before, dir, r.sub, r.channel, event, at)
        else if MergedAway(events, before, dir, r, event, target) && RowKey(id, r.sub, r.channel, 0) in done then Drop(before[r])
        else before[r]
    }

    /** A pending opening of this subscription, channel and dedupe key. */
    predicate PendingOpening(table: map<RowKey, Row>, r: RowKey, sub: SubId, channel: Channel)
      requires sub in dir.subs && r in table
    {
      && r.sub == sub && r.channel == channel && table[r].status == Pending && table[r].user == dir.subs[sub].user
      && r.event in events && events[r.event].lifecycle == Opened
      && events[r.event].project == event.project && events[r.event].key == event.key
    }

    /** supersedePendingIncidentDeliveries */
    function WithoutPending(table: map<RowKey, Row>, sub: SubId, channel: Channel): map<RowKey, Row>
      requires sub in dir.subs
    {
      map r | r in table :: if PendingOpening(table, r, sub, channel) then Drop(table[r]) else table[r]
    }

    predicate Merges(sub: SubId)
      requires sub in dir.subs
    {
      event.lifecycle == Recovered && event.key.Some? && dir.subs[sub].recovery == Merged
    }

    /** Rows of other subscriptions and channels do not influence the status of a new row. */
    lemma StatusIsLocal(before: map<RowKey, Row>, after: map<RowKey, Row>, sub: SubId, channel: Channel)
      requires sub in dir.subs
      requires forall r: RowKey :: r.sub == sub && r.channel == channel ==>
        (r in before <==> r in after) && (r in before ==> before[r] == after[r])
      ensures InitialStatus(incidents, events, before, sub, dir.subs[sub], channel, event, at)
           == InitialStatus(incidents, events, after, sub, dir.subs[sub], channel, event, at)
    {
    }

    ghost predicate ReadyFor(before: map<RowKey, Row>, done: set<RowKey>, sub: SubId, channel: Channel) {
      && Reaches(sub, channel) && RowKey(id, sub, channel, 0) !in done
      && Fresh(before) && forall r :: r in done ==> Addressable(r)
    }

    lemma OtherTurnsDoNotInterfere(before: map<RowKey, Row>, done: set<RowKey>, sub: SubId, channel: Channel)
      requires ReadyFor(before, done, sub, channel)
      ensures InitialStatus(incidents, events, before, sub, dir.subs[sub], channel, event, at)
           == InitialStatus(incidents, events, SoFar(before, done), sub, dir.subs[sub], channel, event, at)
    {
      var after := SoFar(before, done);
      forall r: RowKey | r.sub == sub && r.channel == channel
        ensures r in before <==> r in after
        ensures r in before ==> before[r] == after[r]
      {
        if r in before {
          assert r !in done && RowKey(id, r.sub, r.channel, 0) !in done;
        }
      }
      StatusIsLocal(before, after, sub, channel);
    }

    lemma TurnAt(before: map<RowKey, Row>, done: set<RowKey>, sub: SubId, channel: Channel, r: RowKey)
      requires ReadyFor(before, done, sub, channel) && (r in before || r in done)
      ensures
        var table := SoFar(before, done);
        (if Merges(sub) then WithoutPending(table, sub, channel) else table)[r]
        == SoFar(before, done + {RowKey(id, sub, channel, 0)})[r]
    {
    }

    lemma TurnNew(before: map<RowKey, Row>, done: set<RowKey>, sub: SubId, channel: Channel)
      requires ReadyFor(before, done, sub, channel)
      ensures var key := RowKey(id, sub, channel, 0);
        SoFar(before, done + {key})[key] == NewRow(incidents, events, before, dir, sub, channel, event, at)
    {
    }

    /** Handling one more pair: merge, then insert. */
    lemma Turn(before: map<RowKey, Row>, done: set<RowKey>, sub: SubId, channel: Channel)
      requires ReadyFor(before, done, sub, channel)
      ensures
        var key, table := RowKey(id, sub, channel, 0), SoFar(before, done);
        (if Merges(sub) then WithoutPending(table, sub, channel) else table)
          [key := NewRow(incidents, events, before, dir, sub, channel, event, at)]
        == SoFar(before, done + {key})
    {
      var key, table := RowKey(id, sub, channel, 0), SoFar(before, done);
      var merged := if Merges(sub) then WithoutPending(table, sub, channel) else table;
      var left, right := merged[key := NewRow(incidents, events, before, dir, sub, channel, event, at)], SoFar(before, done + {key});
      assert merged.Keys == table.Keys == before.Keys + done;
      assert left.Keys == right.Keys;
      forall r | r in left
        ensures left[r] == right[r]
      {
        if r != key { TurnAt(before, done, sub, channel, r); } else { TurnNew(before, done, sub, channel); }
      }
    }

    /** One turn of the fan-out loop. */
    function TurnTable(table: map<RowKey, Row>, r: RowKey): map<RowKey, Row> {
      if r.sub in dir.subs && dir.subs[r.sub].user in dir.users then
        (if Merges(r.sub) then WithoutPending(table, r.sub, r.channel) else table)
          [r := NewRow(incidents, events, table, dir, r.sub, r.channel, event, at)]
      else table
    }

    /** The pairs an event reaches, in some order. */
    ghost predicate Ordering(order: seq<RowKey>) {
      && (forall i, j :: 0 <= i < j < |order| ==> order[i] != order[j])
      && (forall r :: r in order ==> r.event == id && r.index == 0 && Reaches(r.sub, r.channel))
    }

    ghost function Fold(before: map<RowKey, Row>, order: seq<RowKey>): map<RowKey, Row> {
      if order == [] then before else TurnTable(Fold(before, order[..|order| - 1]), order[|order| - 1])
    }

    lemma TurnTableIsTurn(before: map<RowKey, Row>, done: set<RowKey>, r: RowKey)
      requires r.event == id && r.index == 0 && ReadyFor(before, done, r.sub, r.channel)
      ensures TurnTable(SoFar(before, done), r) == SoFar(before, done + {r})
    {
      OtherTurnsDoNotInterfere(before, done, r.sub, r.channel);
      Turn(before, done, r.sub, r.channel);
      assert r == RowKey(id, r.sub, r.channel, 0);
    }

    ghost function Elements(order: seq<RowKey>): set<RowKey> {
      set r | r in order
    }

    lemma AppendTurn(before: map<RowKey, Row>, order: seq<RowKey>, r: RowKey)
      requires Ordering(order) && r !in order && r.event == id && r.index == 0 && Reaches(r.sub, r.channel)
      ensures Ordering(order + [r]) && Elements(order + [r]) == Elements(order) + {r}
      ensures Fold(before, order + [r]) == TurnTable(Fold(before, order), r)
    {
      assert (order + [r])[..|order + [r]| - 1] == order;
    }

    lemma {:induction false} FoldIsSoFar(before: map<RowKey, Row>, order: seq<RowKey>)
      requires Fresh(before) && Ordering(order)
      ensures Fold(before, order) == SoFar(before, Elements(order))
    {
      if order != [] {
        var rest, last := order[..|order| - 1], order[|order| - 1];
        assert order == rest + [last];
        FoldIsSoFar(before, rest);
        AppendTurn(before, rest, last);
        TurnTableIsTurn(before, Elements(rest), last);
      } else {
        assert SoFar(before, {}) == before;
      }
    }

    /** The pairs of one subscription with some channels, in order. */
    ghost function KeysFor(sub: SubId, channels: seq<Channel>): seq<RowKey> {
      if channels == [] then []
      else KeysFor(sub, channels[..|channels| - 1]) + [RowKey(id, sub, channels[|channels| - 1], 0)]
    }

    lemma {:induction false} KeysForMembers(sub: SubId, channels: seq<Channel>)
      ensures |KeysFor(sub, channels)| == |channels|
      ensures forall r :: r in KeysFor(sub, channels) <==> r.event == id && r.index == 0 && r.sub == sub && r.channel in channels
    {
      if channels != [] {
        var rest, last := channels[..|channels| - 1], channels[|channels| - 1];
        KeysForMembers(sub, rest);
        assert channels == rest + [last];
        assert forall r :: r in KeysFor(sub, channels) <==> r in KeysFor(sub, rest) || r == RowKey(id, sub, last, 0);
      }
    }

    lemma NextKey(start: seq<RowKey>, sub: SubId, channels: seq<Channel>, i: nat)
      requires i < |channels| && forall j, k :: 0 <= j < k < |channels| ==> channels[j] != channels[k]
      requires forall r :: r in start ==> r.sub != sub
      ensures var key := RowKey(id, sub, channels[i], 0);
        && key !in start + KeysFor(sub, channels[..i])
        && start + KeysFor(sub, channels[..i + 1]) == (start + KeysFor(sub, channels[..i])) + [key]
    {
      KeysForMembers(sub, channels[..i]);
      assert channels[..i + 1][..i] == channels[..i] && channels[i] !in channels[..i];
    }

    lemma PairOfChannel(r: RowKey)
      requires r in Pairs()
      ensures r == RowKey(id, r.sub, r.channel, 0) && r.sub in dir.subs && r.channel in NormalizeChannels(dir.subs[r.sub].channels)
    {
    }

    lemma AllTurns(before: map<RowKey, Row>)
      requires Fresh(before)
      ensures forall r :: r in Pairs() ==> Addressable(r)
      ensures SoFar(before, Pairs()) == EmitRows(incidents, events, before, dir, id, event, target, at)
    {
      forall r | r in before && MergedAway(events, before, dir, r, event, target)
        ensures RowKey(id, r.sub, r.channel, 0) in Pairs()
      {
      }
    }

    /** In whatever order the database returns the subscriptions, the loops leave the table the machine
        prescribes, with one delivery per pair. */
    lemma OrderDoesNotMatter(before: map<RowKey, Row>, order: seq<RowKey>)
      requires Fresh(before) && Ordering(order) && forall r :: r in Pairs() ==> r in order
      ensures Fold(before, order) == EmitRows(incidents, events, before, dir, id, event, target, at)
      ensures |order| == |Pairs()|
    {
      FoldIsSoFar(before, order);
      AllTurns(before);
      assert Elements(order) == Pairs() by {
        assert forall r :: r in order ==> r == RowKey(id, r.sub, r.channel, 0);
      }
      DistinctCount(order);
    }

    lemma {:induction false} DistinctCount(order: seq<RowKey>)
      requires forall i, j :: 0 <= i < j < |order| ==> order[i] != order[j]
      ensures |Elements(order)| == |order|
    {
      if order != [] {
        var rest, last := order[..|order| - 1], order[|order| - 1];
        assert order == rest + [last];
        DistinctCount(rest);
        assert Elements(order) == Elements(rest) + {last};
      }
    }
  }
}
