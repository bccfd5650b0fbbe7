/** What procurement rules promise over every run: whose event reaches whom, when a rule is met, and how often it tells
    its owner (apps/server/src/market-service.ts, evaluateWatches) - all read off the delivery table. */
module MarketRules {
  import opened Wrappers
  import opened MarketOffers
  import opened MarketSnapshot
  import opened MarketSubscription
  import opened Market
  import opened MarketRuns
  import Incidents
  import O = Outbox
  import Steps = OutboxSteps
  import Runs = OutboxRuns
  import E = Emission
  import Said = EmissionMeaning
  import StableJson

  // ---------------------------------------------------------------------------
  // The key of an attempt

  function Framed(snapshot: string): string {
    ":snapshot:" + snapshot + ":attempt:"
  }

  lemma KeyParts(id: WatchId, snapshot: string, attempt: nat)
    ensures WatchKey(id, snapshot, attempt)[6..] == E.Digits(id) + (Framed(snapshot) + E.Digits(attempt))
  {
    assert WatchKey(id, snapshot, attempt) == "watch:" + (E.Digits(id) + (Framed(snapshot) + E.Digits(attempt)));
  }

  lemma FramesDiffer(a: string, b: string)
    requires Framed(a) == Framed(b)
    ensures a == b
  {
    assert Framed(a)[10..10 + |a|] == a && Framed(b)[10..10 + |b|] == b;
    assert |Framed(a)| == |a| + 19 && |Framed(b)| == |b| + 19;
  }

  lemma FrameEnds(a: string)
    ensures Framed(a) != "" && Framed(a)[0] == ':' && Framed(a)[|Framed(a)| - 1] == ':'
  {
  }

  /** Every rule, snapshot and attempt has an idempotency key of its own. */
  lemma WatchKeysDiffer(id: WatchId, snapshot: string, attempt: nat, id': WatchId, snapshot': string, attempt': nat)
    requires WatchKey(id, snapshot, attempt) == WatchKey(id', snapshot', attempt')
    ensures id == id' && snapshot == snapshot' && attempt == attempt'
  {
    KeyParts(id, snapshot, attempt);
    KeyParts(id', snapshot', attempt');
    FrameEnds(snapshot);
    FrameEnds(snapshot');
    FirstColon(E.Digits(id), Framed(snapshot) + E.Digits(attempt), E.Digits(id'), Framed(snapshot') + E.Digits(attempt'));
    LastColon(Framed(snapshot), E.Digits(attempt), Framed(snapshot'), E.Digits(attempt'));
    FramesDiffer(snapshot, snapshot');
    E.DigitsSeparate(id, id');
    E.DigitsSeparate(attempt, attempt');
  }

  predicate AllDigits(s: string) {
    forall i :: 0 <= i < |s| ==> '0' <= s[i] <= '9'
  }

  lemma FirstColon(a: string, b: string, a': string, b': string)
    requires AllDigits(a) && AllDigits(a') && b != "" && b' != "" && b[0] == ':' && b'[0] == ':' && a + b == a' + b'
    ensures a == a' && b == b'
  {
    var whole := a + b;
    assert whole[|a|] == ':' && whole[|a'|] == ':';
    assert forall i :: 0 <= i < |a| ==> whole[i] == a[i];
    assert forall i :: 0 <= i < |a'| ==> whole[i] == a'[i];
    assert whole[..|a|] == a && whole[..|a'|] == a' && whole[|a|..] == b && whole[|a'|..] == b';
  }

  lemma LastColon(a: string, b: string, a': string, b': string)
    requires a != "" && a' != "" && a[|a| - 1] == ':' && a'[|a'| - 1] == ':' && AllDigits(b) && AllDigits(b') && a + b == a' + b'
    ensures a == a' && b == b'
  {
    var whole := a + b;
    assert whole[|a| - 1] == ':' && whole[|a'| - 1] == ':';
    assert forall i :: |a| <= i < |whole| ==> whole[i] == b[i - |a|];
    assert forall i :: |a'| <= i < |whole| ==> whole[i] == b'[i - |a'|];
    assert whole[..|a|] == a && whole[..|a'|] == a' && whole[|a|..] == b && whole[|a'|..] == b';
  }

  // ---------------------------------------------------------------------------
  // Who has been reached

  /** A delivery of the event stored under a key - waiting, under way or done - to a user. */
  ghost predicate LiveRow(out: O.State, r: O.RowKey, project: O.ProjectId, key: string, user: O.UserId) {
    && r in out.rows && r.event in out.events && out.events[r.event].project == project && out.events[r.event].idempotencyKey == Some(key)
    && out.rows[r].user == user && (out.rows[r].status.Pending? || out.rows[r].status.Processing? || out.rows[r].status.Delivered?)
  }

  /** The owner of the rule has a live or completed delivery of the event stored for the rule, this snapshot and the
      rule's present attempt. */
  ghost predicate Reached(topic: Topic, out: O.State, id: WatchId, w: Watch, snapshot: string) {
    exists r :: LiveRow(out, r, topic.project, WatchKey(id, snapshot, w.attempt), w.user)
  }

  lemma ReachedIffServed(topic: Topic, out: O.State, id: WatchId, w: Watch, snapshot: string, e: nat)
    requires Steps.RowsOk(out) && O.KeysUnique(out.events) && O.RecordedUnder(out.events, topic.project, WatchKey(id, snapshot, w.attempt), e)
    ensures Reached(topic, out, id, w, snapshot) <==> OwnerServed(out, e, w.user)
  {
    var key := WatchKey(id, snapshot, w.attempt);
    if r :| LiveRow(out, r, topic.project, key, w.user) {
      assert O.RecordedUnder(out.events, topic.project, key, r.event);
      assert IsDelivery(out, r, e, w.user);
    }
    if r :| r in out.rows && IsDelivery(out, r, e, w.user) {
      assert LiveRow(out, r, topic.project, key, w.user);
    }
  }

  // ---------------------------------------------------------------------------
  // One evaluation

  /** The worker may go on, or needs no lease. */
  predicate InForce(s: System, via: Option<Poll>) {
    via.Some? ==> s.source.leaseToken == Some(via.value.token)
  }

  /** A subscription can be made sure of, and the call about the offer is answered. */
  ghost predicate CallAnswered(topic: Topic, out: O.State, id: WatchId, w: Watch, o: Offer, snapshot: string, d: Draw) {
    && Registered(out.dir, topic) && w.user in out.dir.users
    && E.EmitRequest(Subscribed(topic, out, w.user, d.builtin), d.event, TargetRequest(topic, id, w, o, snapshot, d), d.clock, d.now).1.Ok?
  }

  ghost function Subscribed(topic: Topic, out: O.State, user: O.UserId, builtin: O.SubId): O.State
    requires Registered(out.dir, topic) && user in out.dir.users
  {
    out.(dir := EnsureSubscription(out.dir, topic, user, builtin).value)
  }

  /** The rule after an evaluation that may go on: waiting anew if nothing was found; met if its owner has been
      reached; one attempt further if the call was answered and the owner was not; otherwise unchanged. */
  ghost function Verdict(topic: Topic, s: System, after: O.State, id: WatchId, found: Option<Offer>, snapshot: string, d: Draw): Watch
    requires id in s.watches
  {
    var w := s.watches[id];
    if found.None? then w.(state := Waiting, attempt := 0)
    else if w.state == Met || !CallAnswered(topic, s.out, id, w, found.value, snapshot, d) then w
    else if Reached(topic, after, id, w, snapshot) then w.(state := Met)
    else w.(attempt := w.attempt + 1)
  }

  lemma DecisionRecords(out: O.State, e: nat, req: E.Request, c: E.Content, now: int)
    requires req.idempotencyKey.Some? && c.eventType in out.dir.types && E.Decide(out, e, req, c, now).1.Ok?
    ensures var (out', r) := E.Decide(out, e, req, c, now);
      O.RecordedUnder(out'.events, out.dir.types[c.eventType].project, req.idempotencyKey.value, r.value.event)
  {
    var event := E.EventOf(out.dir, req, c, now);
    if O.FindByKey(out.events, event.project, req.idempotencyKey).None? { Runs.EmitStores(out, e, event, req.target, now); }
  }

  lemma RequestRecords(topic: Topic, out: O.State, e: nat, req: E.Request, clock: int, now: int)
    requires req.idempotencyKey.Some? && Registered(out.dir, topic) && req.eventType == Some(topic.eventType)
    requires E.EmitRequest(out, e, req, clock, now).1.Ok?
    ensures var (out', r) := E.EmitRequest(out, e, req, clock, now);
      O.RecordedUnder(out'.events, topic.project, req.idempotencyKey.value, r.value.event)
  {
    DecisionRecords(out, e, req, E.Prepare(out.dir, req, clock).value, now);
  }

  lemma QuietAnswers(out: O.State, e: nat, req: E.Request, clock: int, now: int)
    ensures var (out', r) := E.EmitRequest(out, e, req, clock, now);
      && (r.Err? ==> out' == out)
      && (r.Ok? && r.value.duplicate ==> out' == out && r.value.deliveries == 0)
  {
  }

  lemma ReceivedIsServed(s: O.State, s': O.State, event: nat, user: O.UserId)
    requires TargetReceived(s, s', event, user)
    ensures OwnerServed(s', event, user)
  {
  }

  /** What an answered call leaves: an event under the rule's key, a delivery count above zero only if the owner was
      served, and, if the event is new, an owner who was. */
  lemma AnswerServes(topic: Topic, s: System, id: WatchId, w: Watch, o: Offer, snapshot: string, d: Draw)
    requires OutboxOk(topic, s) && d.event !in s.out.events && s.now <= d.now && O.UserActive(s.out.dir, w.user)
    requires d.builtin in s.out.dir.subs ==> s.out.dir.subs[d.builtin].user == w.user
    requires CallAnswered(topic, s.out, id, w, o, snapshot, d)
    ensures var (after, r) := E.EmitRequest(Subscribed(topic, s.out, w.user, d.builtin), d.event, TargetRequest(topic, id, w, o, snapshot, d), d.clock, d.now);
      && O.RecordedUnder(after.events, topic.project, WatchKey(id, snapshot, w.attempt), r.value.event)
      && (r.value.deliveries > 0 ==> OwnerServed(after, r.value.event, w.user))
      && (after.events != s.out.events ==> OwnerServed(after, r.value.event, w.user))
      && (forall k :: k in s.out.rows ==> k in after.rows && after.rows[k] == s.out.rows[k])
  {
    var out, req := Subscribed(topic, s.out, w.user, d.builtin), TargetRequest(topic, id, w, o, snapshot, d);
    var (after, r) := E.EmitRequest(out, d.event, req, d.clock, d.now);
    EnsureCovers(s.out.dir, topic, w.user, d.builtin);
    RequestRecords(topic, out, d.event, req, d.clock, d.now);
    QuietAnswers(out, d.event, req, d.clock, d.now);
    if !r.value.duplicate {
      assert RowsHaveEvents(s.out) by { forall k | k in s.out.rows ensures k.event in s.out.events { assert Steps.RowOk(s.out, k); } }
      TargetIsDelivered(s.out, topic, w.user, d.builtin, d.event, req, d.clock, d.now);
      ReceivedIsServed(s.out, after, d.event, w.user);
    }
  }

  lemma SubscribedIff(topic: Topic, dir: O.Directory, user: O.UserId, builtin: O.SubId)
    ensures EnsureSubscription(dir, topic, user, builtin).Some? <==> Registered(dir, topic) && user in dir.users
  {
  }

  lemma SendIs(topic: Topic, out: O.State, id: WatchId, w: Watch, o: Offer, snapshot: string, d: Draw)
    ensures var after, (out', r) := Send(topic, out, id, w, o, snapshot, d), E.EmitRequest(out, d.event, TargetRequest(topic, id, w, o, snapshot, d), d.clock, d.now);
      && after.out == out' && (r.Err? ==> after.watch == w)
      && (r.Ok? ==> after.watch == if r.value.deliveries > 0 || OwnerServed(out', r.value.event, w.user) then w.(state := Met) else w.(attempt := w.attempt + 1))
  {
  }

  lemma AnnounceGives(topic: Topic, out: O.State, id: WatchId, w: Watch, o: Offer, snapshot: string, d: Draw)
    ensures var after := Announce(topic, out, id, w, o, snapshot, d);
      if !(Registered(out.dir, topic) && w.user in out.dir.users) then after == Outcome(out, w)
      else
        var (out', r) := E.EmitRequest(Subscribed(topic, out, w.user, d.builtin), d.event, TargetRequest(topic, id, w, o, snapshot, d), d.clock, d.now);
        && after.out == out'
        && (CallAnswered(topic, out, id, w, o, snapshot, d) <==> r.Ok?)
        && (r.Err? ==> after.watch == w)
        && (r.Ok? ==> after.watch == if r.value.deliveries > 0 || OwnerServed(out', r.value.event, w.user) then w.(state := Met) else w.(attempt := w.attempt + 1))
  {
    SubscribedIff(topic, out.dir, w.user, d.builtin);
    if Registered(out.dir, topic) && w.user in out.dir.users {
      SendIs(topic, Subscribed(topic, out, w.user, d.builtin), id, w, o, snapshot, d);
    }
  }

  /** Announcing a found offer makes a rule met exactly when the call was answered and its owner has been reached. */
  lemma AnnounceMeans(topic: Topic, s: System, id: WatchId, w: Watch, o: Offer, snapshot: string, d: Draw)
    requires OutboxOk(topic, s) && d.event !in s.out.events && s.now <= d.now && O.UserActive(s.out.dir, w.user)
    requires d.builtin in s.out.dir.subs ==> s.out.dir.subs[d.builtin].user == w.user
    ensures var after := Announce(topic, s.out, id, w, o, snapshot, d);
      && after.watch == (if !CallAnswered(topic, s.out, id, w, o, snapshot, d) then w
                         else if Reached(topic, after.out, id, w, snapshot) then w.(state := Met)
                         else w.(attempt := w.attempt + 1))
      && (after.out.events != s.out.events ==> CallAnswered(topic, s.out, id, w, o, snapshot, d) && Reached(topic, after.out, id, w, snapshot))
      && (forall k :: k in s.out.rows ==> k in after.out.rows && after.out.rows[k] == s.out.rows[k])
  {
    var after := Announce(topic, s.out, id, w, o, snapshot, d);
    AnnounceGives(topic, s.out, id, w, o, snapshot, d);
    if Registered(s.out.dir, topic) && w.user in s.out.dir.users {
      var out, req := Subscribed(topic, s.out, w.user, d.builtin), TargetRequest(topic, id, w, o, snapshot, d);
      var r := E.EmitRequest(out, d.event, req, d.clock, d.now).1;
      QuietAnswers(out, d.event, req, d.clock, d.now);
      if r.Ok? {
        AnswerServes(topic, s, id, w, o, snapshot, d);
        AnnouncedOutbox(topic, s, w, id, o, snapshot, d);
        ReachedIffServed(topic, after.out, id, w, snapshot, r.value.event);
      }
    }
  }

  lemma AnnouncedOutbox(topic: Topic, s: System, w: Watch, id: WatchId, o: Offer, snapshot: string, d: Draw)
    requires OutboxOk(topic, s) && d.event !in s.out.events && s.now <= d.now
    requires d.builtin in s.out.dir.subs ==> s.out.dir.subs[d.builtin].user == w.user
    ensures var out' := Announce(topic, s.out, id, w, o, snapshot, d).out; Steps.RowsOk(out') && O.KeysUnique(out'.events)
  {
    JudgeKeepsOutbox(topic, s, w.(state := Waiting), id, Some(o), snapshot, d);
    assert TargetRequest(topic, id, w.(state := Waiting), o, snapshot, d) == TargetRequest(topic, id, w, o, snapshot, d);
  }

  /** Action `i` of the run evaluates a rule. */
  ghost predicate EvaluatesAt(run: Run, i: nat)
    requires run.Valid()
  {
    i < |run.actions| && run.actions[i].Evaluate?
  }

  /** In every run, an evaluation touches nothing but its rule and the outbox. Without the lease it does not do that
      either. Otherwise the offer found is the cheapest active one that the rule wants, and the rule becomes what the
      verdict says: met exactly when the call was answered and the owner has a live or completed delivery of the
      event stored for this rule, snapshot and attempt. Deliveries there were before do not change. */
  lemma EvaluationMeans(run: Run, i: nat)
    requires run.Valid() && EvaluatesAt(run, i)
    ensures var a, s, s' := run.actions[i], run.states[i], run.states[i + 1];
      && a.id in s.watches && Finds(s.tables, s.watches[a.id], a.draw.now, a.found)
      && s' == s.(now := a.draw.now, out := s'.out, watches := s'.watches)
      && (if InForce(s, a.via) then s'.watches == s.watches[a.id := Verdict(run.topic, s, s'.out, a.id, a.found, a.snapshotId, a.draw)]
          else s'.out == s.out && s'.watches == s.watches)
      && (a.found.None? || s.watches[a.id].state == Met ==> s'.out == s.out)
      && (forall k :: k in s.out.rows ==> k in s'.out.rows && s'.out.rows[k] == s.out.rows[k])
  {
    RunKeepsOutbox(run, i);
    assert run.StepOk(i);
    ActionMeans(run.topic, run.states[i], run.actions[i]);
  }

  lemma ActionMeans(topic: Topic, s: System, a: Action)
    requires OutboxOk(topic, s) && Possible(topic, s, a) && a.Evaluate?
    ensures var s' := Apply(topic, s, a);
      && s' == s.(now := a.draw.now, out := s'.out, watches := s'.watches)
      && (if InForce(s, a.via) then s'.watches == s.watches[a.id := Verdict(topic, s, s'.out, a.id, a.found, a.snapshotId, a.draw)]
          else s'.out == s.out && s'.watches == s.watches)
      && (a.found.None? || s.watches[a.id].state == Met ==> s'.out == s.out)
      && (forall k :: k in s.out.rows ==> k in s'.out.rows && s'.out.rows[k] == s.out.rows[k])
  {
    JudgeMeans(topic, s, a.id, a.found, a.snapshotId, a.draw);
  }

  lemma JudgeMeans(topic: Topic, s: System, id: WatchId, found: Option<Offer>, snapshot: string, d: Draw)
    requires OutboxOk(topic, s) && id in s.watches && d.event !in s.out.events && s.now <= d.now && O.UserActive(s.out.dir, s.watches[id].user)
    requires d.builtin in s.out.dir.subs ==> s.out.dir.subs[d.builtin].user == s.watches[id].user
    ensures var after := Judge(topic, s.out, id, s.watches[id], found, snapshot, d);
      && after.watch == Verdict(topic, s, after.out, id, found, snapshot, d)
      && (found.None? || s.watches[id].state == Met ==> after.out == s.out)
      && (forall k :: k in s.out.rows ==> k in after.out.rows && after.out.rows[k] == s.out.rows[k])
  {
    var w := s.watches[id];
    if found.Some? && w.state != Met {
      var after := Announce(topic, s.out, id, w, found.value, snapshot, d);
      AnnounceMeans(topic, s, id, w, found.value, snapshot, d);
      assert Judge(topic, s.out, id, w, found, snapshot, d) == after;
    }
  }

  /** Storing a new event always reaches the owner, so the rule is met. */
  lemma NewEventsReach(run: Run, i: nat)
    requires run.Valid() && EvaluatesAt(run, i) && run.states[i + 1].out.events != run.states[i].out.events
    ensures var a, s, s' := run.actions[i], run.states[i], run.states[i + 1];
      && InForce(s, a.via) && a.id in s.watches && s.watches[a.id].state != Met && a.found.Some?
      && Reached(run.topic, s'.out, a.id, s.watches[a.id], a.snapshotId)
      && s'.watches == s.watches[a.id := s.watches[a.id].(state := Met)]
  {
    var a, s := run.actions[i], run.states[i];
    RunKeepsOutbox(run, i);
    assert run.StepOk(i);
    if a.found.Some? { AnnounceMeans(run.topic, s, a.id, s.watches[a.id], a.found.value, a.snapshotId, a.draw); }
  }

  /** A rule becomes met only by an evaluation that found an offer, and after which its owner has been reached. */
  lemma MetMeansServed(run: Run, i: nat, id: WatchId)
    requires run.Valid() && i < |run.actions| && id in run.states[i].watches && id in run.states[i + 1].watches
    requires run.states[i].watches[id].state != Met && run.states[i + 1].watches[id].state == Met
    ensures var a, s, w := run.actions[i], run.states[i], run.states[i].watches[id];
      && a.Evaluate? && a.id == id && InForce(s, a.via) && a.found.Some? && Finds(s.tables, w, a.draw.now, a.found)
      && Reached(run.topic, run.states[i + 1].out, id, w, a.snapshotId)
  {
    assert run.StepOk(i);
    OnlyEvaluationsMeet(run.topic, run.states[i], run.actions[i], id);
    EvaluationMeans(run, i);
  }

  lemma OnlyEvaluationsMeet(topic: Topic, s: System, a: Action, id: WatchId)
    requires Possible(topic, s, a) && id in s.watches && id in Apply(topic, s, a).watches
    requires s.watches[id].state != Met && Apply(topic, s, a).watches[id].state == Met
    ensures a.Evaluate? && a.id == id
  {
  }

  // ---------------------------------------------------------------------------
  // When the call is answered

  /** For an attempt whose key is unused the call is answered exactly when the built-in project and event type are
      there and switched on, the owner is known, and the message meets every requirement. */
  lemma CallAnsweredIff(topic: Topic, out: O.State, id: WatchId, w: Watch, o: Offer, snapshot: string, d: Draw)
    requires forall e :: !O.RecordedUnder(out.events, topic.project, WatchKey(id, snapshot, w.attempt), e)
    ensures CallAnswered(topic, out, id, w, o, snapshot, d) <==>
      && Registered(out.dir, topic) && out.dir.projects[topic.project] && out.dir.types[topic.eventType].enabled && w.user in out.dir.users
      && Said.AllMet(Said.Requirements(out.dir.types[topic.eventType], TargetRequest(topic, id, w, o, snapshot, d), d.clock))
  {
    if Registered(out.dir, topic) && w.user in out.dir.users {
      var ready, req := Subscribed(topic, out, w.user, d.builtin), TargetRequest(topic, id, w, o, snapshot, d);
      ProperData(w, o, snapshot);
      assert Said.KeyUnused(ready, topic.project, req) by {
        forall e | e in ready.events && ready.events[e].project == topic.project ensures ready.events[e].idempotencyKey != req.idempotencyKey {
          assert !O.RecordedUnder(out.events, topic.project, WatchKey(id, snapshot, w.attempt), e);
        }
      }
      assert ready.dir.types == out.dir.types && ready.dir.projects == out.dir.projects;
      Said.CallSucceedsIff(ready, d.event, req, d.clock, d.now);
    }
  }

  lemma ProperData(w: Watch, o: Offer, snapshot: string)
    ensures StableJson.Proper(TargetData(w, o, snapshot))
  {
    var f := TargetData(w, o, snapshot).fields;
    E.NumbersSeparate(o.stock, o.stock);
    MoreFields(f.rest.rest.rest.rest.rest.rest.rest, {});
    MoreFields(f.rest.rest.rest.rest.rest.rest, {"snapshotId"});
    MoreFields(f.rest.rest.rest.rest.rest, {"snapshotId", "stock"});
    MoreFields(f.rest.rest.rest.rest, {"snapshotId", "stock", "offerUrl"});
    MoreFields(f.rest.rest.rest, {"snapshotId", "stock", "offerUrl", "offerTitle"});
    MoreFields(f.rest.rest, {"snapshotId", "stock", "offerUrl", "offerTitle", "storeName"});
    MoreFields(f.rest, {"snapshotId", "stock", "offerUrl", "offerTitle", "storeName", "currency"});
    MoreFields(f, {"snapshotId", "stock", "offerUrl", "offerTitle", "storeName", "currency", "price"});
  }

  lemma MoreFields(f: StableJson.Fields, keys: set<string>)
    requires f.Field? && f.key !in keys && StableJson.Proper(f.value) && StableJson.ProperFields(f.rest) && StableJson.Keys(f.rest) <= keys
    ensures StableJson.ProperFields(f) && StableJson.Keys(f) <= keys + {f.key}
  {
  }

  // ---------------------------------------------------------------------------
  // What the owner is told

  /** The first characters of a text, or all of it. */
  predicate Shortened(s: string, length: nat, t: string) {
    t <= s && |t| == if |s| < length then |s| else length
  }

  /** The number a text of digits stands for. */
  function Read(digits: string): nat
    requires AllDigits(digits)
  {
    if digits == "" then 0 else 10 * Read(digits[..|digits| - 1]) + (digits[|digits| - 1] as int - '0' as int)
  }

  lemma {:induction false} DigitsRead(n: nat)
    ensures AllDigits(E.Digits(n)) && Read(E.Digits(n)) == n
  {
    var t := E.Digits(n);
    if n >= 10 {
      DigitsRead(n / 10);
      assert t[..|t| - 1] == E.Digits(n / 10);
    } else {
      assert t[..|t| - 1] == "";
    }
  }

  /** A price as a text: its units, a point and two digits of hundredths. */
  ghost predicate Priced(text: string, minor: nat) {
    && |text| >= 4 && text[|text| - 3] == '.' && AllDigits(text[..|text| - 3]) && AllDigits(text[|text| - 2..])
    && minor == 100 * Read(text[..|text| - 3]) + Read(text[|text| - 2..])
  }

  lemma DecimalIsPrice(minor: nat)
    ensures Priced(Decimal(minor), minor)
  {
    var units, rest, text := E.Digits(minor / 100), minor % 100, Decimal(minor);
    DigitsRead(minor / 100);
    DigitsRead(rest);
    var cents := (if rest < 10 then "0" else "") + E.Digits(rest);
    TwoDigits(rest);
    assert text == units + "." + cents;
    assert text[..|text| - 3] == units && text[|text| - 2..] == cents;
  }

  lemma TwoDigits(n: nat)
    requires n < 100
    ensures var cents := (if n < 10 then "0" else "") + E.Digits(n); |cents| == 2 && AllDigits(cents) && Read(cents) == n
  {
    var cents := (if n < 10 then "0" else "") + E.Digits(n);
    DigitsRead(n);
    if n < 10 {
      assert E.Digits(n) == [('0' as int + n) as char];
      assert cents[..1] == "0" && Read("0") == 0 by { assert "0"[..0] == "" && Read("") == 0; }
    } else {
      assert E.Digits(n / 10) == [('0' as int + n / 10) as char];
    }
  }

  function ShopOf(o: Offer): string {
    if o.storeName.Some? then o.storeName.value else o.sourceName
  }

  lemma FirstFields(w: Watch, o: Offer, snapshot: string)
    ensures var f := TargetData(w, o, snapshot).fields;
      && StableJson.Look(f, "productName") == Some(StableJson.Str(Cut(w.name, 200)))
      && StableJson.Look(f, "price") == Some(StableJson.Str(Decimal(o.price)))
      && StableJson.Look(f, "currency") == Some(StableJson.Str(o.currency))
      && StableJson.Look(f, "storeName") == Some(StableJson.Str(Cut(ShopOf(o), 200)))
  {
    var f := TargetData(w, o, snapshot).fields;
    FourFields(f, "productName");
    FourFields(f, "price");
    FourFields(f, "currency");
    FourFields(f, "storeName");
  }

  lemma LastFields(w: Watch, o: Offer, snapshot: string)
    ensures var f := TargetData(w, o, snapshot).fields;
      && StableJson.Look(f, "offerTitle") == Some(StableJson.Str(Cut(o.title, 500))) && StableJson.Look(f, "offerUrl") == Some(StableJson.Str(o.url))
      && StableJson.Look(f, "stock") == Some(E.NumberOrNull(o.stock)) && StableJson.Look(f, "snapshotId") == Some(StableJson.Str(snapshot))
  {
    var f := TargetData(w, o, snapshot).fields;
    var last := f.rest.rest.rest.rest;
    FourFields(f, "offerTitle");
    FourFields(last, "offerTitle");
    FourFields(f, "offerUrl");
    FourFields(last, "offerUrl");
    FourFields(f, "stock");
    FourFields(last, "stock");
    FourFields(f, "snapshotId");
    FourFields(last, "snapshotId");
  }

  lemma FourFields(f: StableJson.Fields, key: string)
    requires f.Field? && f.rest.Field? && f.rest.rest.Field? && f.rest.rest.rest.Field?
    ensures StableJson.Look(f, key) ==
      if f.key == key then Some(f.value) else if f.rest.key == key then Some(f.rest.value)
      else if f.rest.rest.key == key then Some(f.rest.rest.value) else if f.rest.rest.rest.key == key then Some(f.rest.rest.rest.value)
      else StableJson.Look(f.rest.rest.rest.rest, key)
  {
    StableJson.LookOn(f, key);
    StableJson.LookOn(f.rest, key);
    StableJson.LookOn(f.rest.rest, key);
    StableJson.LookOn(f.rest.rest.rest, key);
  }

  /** The message names the rule's product, the offer's price to two decimals, its currency, shop, title, address and
      stock, and the snapshot; texts are cut to what the event type allows. */
  lemma TargetSays(topic: Topic, id: WatchId, w: Watch, o: Offer, snapshot: string, d: Draw)
    ensures var req := TargetRequest(topic, id, w, o, snapshot, d); var f := req.data.fields;
      && req.data.Obj? && req.priority == Some(4) && req.target == Some(w.user) && req.dedupeKey == None && req.occurredAt == None
      && (exists t :: StableJson.Look(f, "productName") == Some(StableJson.Str(t)) && Shortened(w.name, 200, t))
      && (exists t :: StableJson.Look(f, "price") == Some(StableJson.Str(t)) && Priced(t, o.price))
      && (exists t :: StableJson.Look(f, "storeName") == Some(StableJson.Str(t)) && Shortened(ShopOf(o), 200, t))
      && (exists t :: StableJson.Look(f, "offerTitle") == Some(StableJson.Str(t)) && Shortened(o.title, 500, t))
      && StableJson.Look(f, "currency") == Some(StableJson.Str(o.currency)) && StableJson.Look(f, "offerUrl") == Some(StableJson.Str(o.url))
      && StableJson.Look(f, "stock") == Some(if o.stock.Some? then StableJson.Num(E.Numeral(o.stock.value)) else StableJson.Null)
      && StableJson.Look(f, "snapshotId") == Some(StableJson.Str(snapshot))
  {
    FirstFields(w, o, snapshot);
    LastFields(w, o, snapshot);
    DecimalIsPrice(o.price);
    assert Shortened(w.name, 200, Cut(w.name, 200)) && Shortened(o.title, 500, Cut(o.title, 500)) && Shortened(ShopOf(o), 200, Cut(ShopOf(o), 200));
  }

  // ---------------------------------------------------------------------------
  // Between two fresh events

  /** This action stores a new event for the rule. */
  ghost predicate Announces(s: System, a: Action, s': System, id: WatchId) {
    a.Evaluate? && a.id == id && s'.out.events != s.out.events
  }

  /** An evaluation that may go on and finds nothing, or an edit of the target. */
  predicate Resets(s: System, a: Action, id: WatchId) {
    id in s.watches
    && ((a.Evaluate? && a.id == id && InForce(s, a.via) && a.found.None?)
        || (a.PatchWatch? && a.id == id && a.target.Some? && a.target.value != s.watches[id].target))
  }

  lemma MetStep(topic: Topic, s: System, a: Action, id: WatchId)
    requires Possible(topic, s, a) && !Resets(s, a, id)
    requires if id in s.watches then s.watches[id].state == Met else id in s.retired
    ensures var s' := Apply(topic, s, a); if id in s'.watches then s'.watches[id].state == Met else id in s'.retired
  {
  }

  /** A met rule stays met until an evaluation finds nothing or its target is edited. */
  lemma {:induction false} MetUntilReset(run: Run, i: nat, j: nat, id: WatchId)
    requires run.Valid() && i <= j < |run.states| && id in run.states[i].watches && run.states[i].watches[id].state == Met
    requires forall k :: i <= k < j ==> !Resets(run.states[k], run.actions[k], id)
    ensures var s := run.states[j]; if id in s.watches then s.watches[id].state == Met else id in s.retired
    decreases j
  {
    if i < j {
      MetUntilReset(run, i, j - 1, id);
      assert run.StepOk(j - 1);
      MetStep(run.topic, run.states[j - 1], run.actions[j - 1], id);
    }
  }

  /** Action `i` of the run stores a new event for the rule. */
  ghost predicate AnnouncesAt(run: Run, i: nat, id: WatchId)
    requires run.Valid() && i < |run.actions|
  {
    Announces(run.states[i], run.actions[i], run.states[i + 1], id)
  }

  /** Between two fresh events of one rule there is an evaluation that finds no wanted offer, or an edit of the target:
      as long as an offer is there, no rule tells its owner twice. */
  lemma FreshEventsAreSeparated(run: Run, i: nat, j: nat, id: WatchId)
    requires run.Valid() && i < j < |run.actions| && AnnouncesAt(run, i, id) && AnnouncesAt(run, j, id)
    ensures exists k :: i < k < j && Resets(run.states[k], run.actions[k], id)
  {
    NewEventsReach(run, i);
    NewEventsReach(run, j);
    if forall k :: i < k < j ==> !Resets(run.states[k], run.actions[k], id) {
      MetUntilReset(run, i + 1, j, id);
    }
  }

  lemma NewEventIsStored(out: O.State, e: nat, req: E.Request, clock: int, now: int)
    ensures var (out', r) := E.EmitRequest(out, e, req, clock, now); r.Ok? && !r.value.duplicate ==> e in out'.events
  {
  }

  lemma UnreachedIsDropped(topic: Topic, out: O.State, id: WatchId, w: Watch, snapshot: string, e: nat)
    requires O.RecordedUnder(out.events, topic.project, WatchKey(id, snapshot, w.attempt), e) && !Reached(topic, out, id, w, snapshot)
    ensures AllDropped(out, e, w.user)
  {
    forall r | r in out.rows && r.event == e && out.rows[r].user == w.user
      ensures out.rows[r].status.Failed? || out.rows[r].status.Superseded? || out.rows[r].status.Suppressed?
    {
      assert !LiveRow(out, r, topic.project, WatchKey(id, snapshot, w.attempt), w.user);
    }
  }

  lemma UndeliveredAnswer(topic: Topic, s: System, id: WatchId, w: Watch, o: Offer, snapshot: string, d: Draw)
    requires OutboxOk(topic, s) && d.event !in s.out.events && s.now <= d.now && O.UserActive(s.out.dir, w.user)
    requires d.builtin in s.out.dir.subs ==> s.out.dir.subs[d.builtin].user == w.user
    requires CallAnswered(topic, s.out, id, w, o, snapshot, d) && !Reached(topic, Announce(topic, s.out, id, w, o, snapshot, d).out, id, w, snapshot)
    ensures var out' := Announce(topic, s.out, id, w, o, snapshot, d).out;
      && out'.events == s.out.events && out'.rows == s.out.rows
      && exists e :: O.RecordedUnder(s.out.events, topic.project, WatchKey(id, snapshot, w.attempt), e) && AllDropped(s.out, e, w.user)
  {
    var out, req := Subscribed(topic, s.out, w.user, d.builtin), TargetRequest(topic, id, w, o, snapshot, d);
    var (after, r) := E.EmitRequest(out, d.event, req, d.clock, d.now);
    AnnounceMeans(topic, s, id, w, o, snapshot, d);
    AnswerServes(topic, s, id, w, o, snapshot, d);
    QuietAnswers(out, d.event, req, d.clock, d.now);
    NewEventIsStored(out, d.event, req, d.clock, d.now);
    UnreachedIsDropped(topic, after, id, w, snapshot, r.value.event);
  }

  lemma OnlyEvaluationsCount(topic: Topic, s: System, a: Action, id: WatchId)
    requires Possible(topic, s, a) && id in s.watches && id in Apply(topic, s, a).watches
    requires Apply(topic, s, a).watches[id].attempt > s.watches[id].attempt
    ensures a.Evaluate? && a.id == id
  {
  }

  lemma AttemptGrows(run: Run, i: nat)
    requires run.Valid() && EvaluatesAt(run, i) && run.actions[i].id in run.states[i].watches && run.actions[i].id in run.states[i + 1].watches
    requires run.states[i + 1].watches[run.actions[i].id].attempt > run.states[i].watches[run.actions[i].id].attempt
    ensures var a, s, s' := run.actions[i], run.states[i], run.states[i + 1]; var w := s.watches[a.id];
      && InForce(s, a.via) && a.found.Some? && w.state != Met && s'.watches[a.id] == w.(attempt := w.attempt + 1)
      && CallAnswered(run.topic, s.out, a.id, w, a.found.value, a.snapshotId, a.draw) && !Reached(run.topic, s'.out, a.id, w, a.snapshotId)
      && s'.out == Announce(run.topic, s.out, a.id, w, a.found.value, a.snapshotId, a.draw).out
  {
    EvaluationMeans(run, i);
    assert run.StepOk(i);
  }

  ghost predicate AllDropped(out: O.State, e: nat, user: O.UserId) {
    forall r :: r in out.rows && r.event == e && out.rows[r].user == user ==>
        out.rows[r].status.Failed? || out.rows[r].status.Superseded? || out.rows[r].status.Suppressed?
  }

  /** The attempt counter only ever goes up by one, and only when an evaluation's call was answered and yet its owner
      has no live or completed delivery of the event: all of them have been dropped or have failed. */
  lemma AttemptsAreUndelivered(run: Run, i: nat, id: WatchId)
    requires run.Valid() && i < |run.actions| && id in run.states[i].watches && id in run.states[i + 1].watches
    requires run.states[i + 1].watches[id].attempt > run.states[i].watches[id].attempt
    ensures var a, s, s', w := run.actions[i], run.states[i], run.states[i + 1], run.states[i].watches[id];
      && a.Evaluate? && a.id == id && InForce(s, a.via) && a.found.Some? && w.state != Met
      && s'.watches[id] == w.(attempt := w.attempt + 1) && s'.out.events == s.out.events && s'.out.rows == s.out.rows
      && exists e :: O.RecordedUnder(s.out.events, run.topic.project, WatchKey(id, a.snapshotId, w.attempt), e) && AllDropped(s.out, e, w.user)
  {
    var a, s, s' := run.actions[i], run.states[i], run.states[i + 1];
    assert run.StepOk(i);
    OnlyEvaluationsCount(run.topic, s, a, id);
    var w := s.watches[id];
    AttemptGrows(run, i);
    RunKeepsOutbox(run, i);
    UndeliveredAnswer(run.topic, s, id, w, a.found.value, a.snapshotId, a.draw);
  }
}
