/** The subscription a procurement rule needs, and the delivery it guarantees
    (apps/server/src/notification-service.ts, ensureMarketNotificationSubscription). */
module MarketSubscription {
  import opened Wrappers
  import opened Incidents
  import opened Outbox
  import E = Emission

  /** The built-in project "market-intelligence" and its event type "price.target_met". */
  datatype Topic = Topic(project: ProjectId, eventType: TypeId)

  const EVENT_PRIORITY: int := 4

  predicate Registered(dir: Directory, topic: Topic) {
    topic.project in dir.projects && topic.eventType in dir.types && dir.types[topic.eventType].project == topic.project
  }

  /** A subscription of this user that a target event would match. */
  predicate Covers(sub: Subscription, topic: Topic, user: UserId) {
    && sub.user == user && sub.enabled
    && (sub.project.None? || sub.project.value == topic.project)
    && (sub.eventType.None? || sub.eventType.value == topic.eventType)
    && sub.minPriority <= EVENT_PRIORITY
  }

  predicate Covered(dir: Directory, topic: Topic, user: UserId) {
    exists x :: x in dir.subs && Covers(dir.subs[x], topic, user)
  }

  /** The upsert of the built-in subscription, `builtin:market-price:<user>`. */
  function BuiltIn(existing: Option<Subscription>, topic: Topic, user: UserId): Subscription {
    match existing
    case None => Subscription(user, Some(topic.project), Some(topic.eventType), 1, None, ["in_app"], Once, 1800, 1, None, None, Merged, true)
    case Some(sub) => sub.(project := Some(topic.project), eventType := Some(topic.eventType), minPriority := 1, channels := ["in_app"], enabled := true)
  }

  /** None for the thrown error: the event type is missing, or the user is. */
  function EnsureSubscription(dir: Directory, topic: Topic, user: UserId, builtin: SubId): Option<Directory> {
    if !Registered(dir, topic) || user !in dir.users then None
    else
      var joined := dir.(members := dir.members + {(topic.project, user)});
      if Covered(dir, topic, user) then Some(joined)
      else
        var existing := if builtin in dir.subs then Some(dir.subs[builtin]) else None;
        Some(joined.(subs := dir.subs[builtin := BuiltIn(existing, topic, user)]))
  }

  /** Whoever had no subscription for the event has one afterwards, and nobody else's changes. */
  lemma EnsureCovers(dir: Directory, topic: Topic, user: UserId, builtin: SubId)
    requires builtin in dir.subs ==> dir.subs[builtin].user == user
    requires EnsureSubscription(dir, topic, user, builtin).Some?
    ensures var after := EnsureSubscription(dir, topic, user, builtin).value;
      && Covered(after, topic, user) && (topic.project, user) in after.members && Registered(after, topic)
      && after.users == dir.users && after.types == dir.types && after.projects == dir.projects
      && (forall x :: x in dir.subs && (x != builtin || Covered(dir, topic, user)) ==> x in after.subs && after.subs[x] == dir.subs[x])
  {
    var after := EnsureSubscription(dir, topic, user, builtin).value;
    if !Covered(dir, topic, user) { assert Covers(after.subs[builtin], topic, user); }
  }

  /** The built-in subscription delivers every priority in the app, once per outage; one that was there before is switched
      on and turned to the event, and keeps its other settings. */
  lemma BuiltInSettings(dir: Directory, topic: Topic, user: UserId, builtin: SubId)
    requires EnsureSubscription(dir, topic, user, builtin).Some? && !Covered(dir, topic, user)
    ensures var subs := EnsureSubscription(dir, topic, user, builtin).value.subs;
      && builtin in subs && subs == dir.subs[builtin := subs[builtin]]
      && var sub := subs[builtin];
         && sub.project == Some(topic.project) && sub.eventType == Some(topic.eventType) && sub.minPriority == 1 && sub.channels == ["in_app"] && sub.enabled
         && (if builtin in dir.subs
             then dir.subs[builtin] == sub.(project := dir.subs[builtin].project, eventType := dir.subs[builtin].eventType,
                    minPriority := dir.subs[builtin].minPriority, channels := dir.subs[builtin].channels, enabled := dir.subs[builtin].enabled)
             else sub.user == user && sub.deliveryPriority == None && sub.cooldown == Once && sub.cooldownSeconds == 1800 && sub.repeatCount == 1
                  && sub.quietStart == None && sub.quietEnd == None && sub.recovery == Merged)
  {
  }

  /** Every stored channel list names a known channel. */
  ghost predicate ChannelsKnown(dir: Directory) {
    forall x :: x in dir.subs ==> NormalizeChannels(dir.subs[x].channels) != []
  }

  lemma EnsureKeepsChannels(dir: Directory, topic: Topic, user: UserId, builtin: SubId)
    requires ChannelsKnown(dir) && EnsureSubscription(dir, topic, user, builtin).Some?
    ensures ChannelsKnown(EnsureSubscription(dir, topic, user, builtin).value)
  {
    assert ["in_app"][0] == "in_app";
    assert InApp in NormalizeChannels(["in_app"]) by { assert "in_app" in ["in_app"] && ParseChannel("in_app") == Some(InApp); }
  }

  /** The rows of a targeted event without a dedupe key: one pending row for each match, all the target's. */
  lemma TargetedRows(s: State, id: EventId, event: Event, user: UserId, now: int)
    requires event.key.None? && event.lifecycle == Plain
    ensures var s' := Emit(s, id, event, Some(user), now);
      && (forall r :: r in FanOut(s.dir, id, event, Some(user)) ==>
            r in s'.rows && r.event == id && s'.rows[r].status == Pending && s'.rows[r].user == user)
      && (forall r :: r in s.rows && r.event != id ==> r in s'.rows && s'.rows[r] == s.rows[r])
  {
  }

  lemma CoveredFansOut(dir: Directory, topic: Topic, id: EventId, event: Event, user: UserId)
    requires Covered(dir, topic, user) && (topic.project, user) in dir.members && UserActive(dir, user) && ChannelsKnown(dir)
    requires event.project == topic.project && event.eventType == topic.eventType && event.priority == EVENT_PRIORITY
    ensures FanOut(dir, id, event, Some(user)) != {}
  {
    var x :| x in dir.subs && Covers(dir.subs[x], topic, user);
    var channel := NormalizeChannels(dir.subs[x].channels)[0];
    assert Matches(dir, dir.subs[x], event, Some(user));
    assert RowKey(id, x, channel, 0) in FanOut(dir, id, event, Some(user));
  }

  /** A call that announces a met target to one user. */
  predicate TargetCall(req: E.Request, topic: Topic, user: UserId) {
    && req.eventType == Some(topic.eventType) && req.dedupeKey.None? && req.target == Some(user) && req.priority == Some(EVENT_PRIORITY)
  }

  ghost predicate TargetReceived(s: State, s': State, event: EventId, user: UserId) {
    && (exists r :: r in s'.rows && r.event == event)
    && (forall r :: r in s'.rows && r.event == event ==> s'.rows[r].status == Pending && s'.rows[r].user == user)
    && (forall r :: r in s.rows ==> r in s'.rows && s'.rows[r] == s.rows[r])
  }

  ghost predicate RowsHaveEvents(s: State) {
    forall r :: r in s.rows ==> r.event in s.events
  }

  lemma EmittedRows(s: State, id: EventId, event: Event, user: UserId, now: int)
    requires event.key.None? && event.lifecycle == Plain && id !in s.events && RowsHaveEvents(s)
    ensures var s' := Emit(s, id, event, Some(user), now);
      forall r :: r in s'.rows && r.event == id ==> r in FanOut(s.dir, id, event, Some(user))
  {
  }

  /** After the subscription has been ensured for an active user, a fresh target event for that user creates at
      least one delivery; all of them are pending, all are the user's, and no other delivery changes. */
  lemma TargetIsDelivered(s: State, topic: Topic, user: UserId, builtin: SubId, id: EventId, req: E.Request, clock: int, now: int)
    requires builtin in s.dir.subs ==> s.dir.subs[builtin].user == user
    requires ChannelsKnown(s.dir) && UserActive(s.dir, user) && RowsHaveEvents(s) && id !in s.events
    requires TargetCall(req, topic, user) && EnsureSubscription(s.dir, topic, user, builtin).Some?
    requires s.dir.types[topic.eventType].lifecycle == Plain
    ensures var ready := s.(dir := EnsureSubscription(s.dir, topic, user, builtin).value);
      var (s', r) := E.EmitRequest(ready, id, req, clock, now);
      r.Ok? && !r.value.duplicate ==> r.value.deliveries > 0 && r.value.event == id && TargetReceived(s, s', id, user)
  {
    EnsureCovers(s.dir, topic, user, builtin);
    EnsureKeepsChannels(s.dir, topic, user, builtin);
    var ready := s.(dir := EnsureSubscription(s.dir, topic, user, builtin).value);
    var (s', r) := E.EmitRequest(ready, id, req, clock, now);
    if r.Ok? && !r.value.duplicate {
      var c := E.Prepare(ready.dir, req, clock).value;
      FreshTarget(ready, topic, user, id, req, c, now);
    }
  }

  lemma FreshTarget(s: State, topic: Topic, user: UserId, id: EventId, req: E.Request, c: E.Content, now: int)
    requires Covered(s.dir, topic, user) && (topic.project, user) in s.dir.members && Registered(s.dir, topic)
    requires ChannelsKnown(s.dir) && UserActive(s.dir, user) && RowsHaveEvents(s) && id !in s.events
    requires TargetCall(req, topic, user)
    requires c.eventType == topic.eventType && c.priority == EVENT_PRIORITY && c.dedupeKey.None? && c.lifecycle == Plain
    ensures var (s', r) := E.Decide(s, id, req, c, now);
      r.Ok? && !r.value.duplicate ==> r.value.deliveries > 0 && r.value.event == id && TargetReceived(s, s', id, user)
  {
    var event := E.EventOf(s.dir, req, c, now);
    if FindByKey(s.events, event.project, req.idempotencyKey).None? {
      var s' := Emit(s, id, event, Some(user), now);
      CoveredFansOut(s.dir, topic, id, event, user);
      TargetedRows(s, id, event, user, now);
      EmittedRows(s, id, event, user, now);
      var r :| r in FanOut(s.dir, id, event, Some(user));
      assert r in s'.rows && r.event == id;
      assert TargetReceived(s, s', id, user);
    }
  }
}
