/** The market poller and the procurement rules over their tables, method by method, each proved to take the
    steps of the Market machine it stands for (apps/server/src/market-service.ts and the watch handlers of
    apps/server/src/routes/market.ts). */
module MarketService {
  import opened Wrappers
  import opened Outside
  import opened MarketOffers
  import opened MarketSnapshot
  import opened MarketSubscription
  import opened Market
  import opened MarketRuns
  import opened MarketPolls
  import Incidents
  import O = Outbox
  import Runs = OutboxRuns
  import E = Emission
  import NotificationService
  import NotificationApi

  datatype Reply = Done | NoProduct | NotFound | Forbidden | LimitReached | AlreadyThere

  class MarketMonitor {
    const store: NotificationService.NotificationStore
    const topic: Topic
    const fetches: Poll -> Fetched

    var now: int
    var source: Source
    var products: map<ProductId, Facts>
    var listings: map<string, Listing>
    var offers: map<OfferKey, OfferRow>
    var watches: map<WatchId, Watch>

    /** Whether a poll of this process is under way. */
    var activePoll: bool

    ghost var loaded: Option<Snapshot>
    ghost var retired: set<WatchId>
    ghost var polls: set<Poll>
    ghost var tokens: set<Token>

    ghost function State(): System
      reads this, store
    {
      System(now, source, Shelves(), loaded, watches, retired, store.Tables(), polls, tokens)
    }

    ghost function Shelves(): Tables
      reads this
    {
      Tables(products, listings, offers)
    }

    ghost predicate Valid()
      reads this, store
    {
      store.Valid() && Reachable(topic, State())
    }

    /** `fetches` is what each poll will be answered; no two polls are alike, so any answers are possible. */
    constructor (store: NotificationService.NotificationStore, topic: Topic, source: Source, clock: int, fetches: Poll -> Fetched)
      requires store.Valid() && O.Initial(store.Tables()) && store.now <= clock && ChannelsKnown(store.dir)
      requires topic.eventType in store.dir.types ==> store.dir.types[topic.eventType].lifecycle == Incidents.Plain
      requires source.leaseToken.None?
      ensures Valid() && Initial(topic, State()) && this.store == store && this.topic == topic && this.fetches == fetches
    {
      this.store, this.topic, this.fetches := store, topic, fetches;
      now, this.source, activePoll := clock, source, false;
      products, listings, offers, watches := map[], map[], map[], map[];
      loaded, retired, polls, tokens := None, {}, {}, {};
      new;
      LeadsNowhere(topic, State());
    }

    // -------------------------------------------------------------------------
    // The source

    /** claimSource; `token` is a fresh random one. */
    method ClaimSource(force: bool, token: Token, at: int, later: int) returns (poll: Option<Poll>)
      requires Valid() && now <= at <= later && token !in tokens
      modifies this
      ensures poll.Some? <==> Pollable(old(source), force, at)
      ensures poll.None? ==> State() == old(State())
      ensures poll.Some? ==> poll.value == Poll(token, source)
      ensures poll.Some? ==> poll.value in polls && HoldsLease(State(), poll.value) && State() == Claim(old(State()), token, at, later)
      ensures Valid() && Leads(topic, old(State()), State())
    {
      LeadsNowhere(topic, State());
      if !(source.enabled && (source.leaseUntil.None? || source.leaseUntil.value < at) && (force || source.nextPollAt <= at)) {
        return None;
      }
      TakeStep(topic, State(), ClaimPoll(force, token, at, later));
      var taken := LeaseSource(token, at, later);
      poll := Some(taken);
    }

    method LeaseSource(token: Token, at: int, later: int) returns (poll: Poll)
      modifies `source, `now, `polls, `tokens
      ensures State() == Claim(old(State()), token, at, later) && poll == Poll(token, source)
    {
      source := source.(leaseUntil := Some(later + SOURCE_LEASE_MS), leaseToken := Some(token), lastAttemptAt := Some(at));
      poll := Poll(token, source);
      now, polls, tokens := later, polls + {poll}, tokens + {token};
    }

    /** releaseSource */
    method ReleaseSource(poll: Poll, c: Changes, later: int) returns (released: bool)
      requires Valid() && poll in polls && now <= later
      modifies this
      ensures released <==> HoldsLease(old(State()), poll)
      ensures State() == Release(old(State()), poll, c, later)
      ensures Valid() && Leads(topic, old(State()), State())
    {
      TakeStep(topic, State(), ReleasePoll(poll, c, later));
      released := source.leaseToken == Some(poll.token);
      if released {
        source := source.(status := c.status, stale := c.stale, lastError := c.error,
          lastSuccessAt := if c.success.Some? then c.success else source.lastSuccessAt,
          lastSnapshot := if c.snapshot.Some? then c.snapshot else source.lastSnapshot,
          lastPublished := if c.published.Some? then c.published else source.lastPublished,
          nextPollAt := later + poll.row.interval * 1000, leaseUntil := None, leaseToken := None);
      }
      now := later;
    }

    // -------------------------------------------------------------------------
    // upsertSnapshot

    /** The UNIQUE (source_id, product_id) check. */
    method FindClash(externalId: string, product: ProductId) returns (found: bool)
      ensures found <==> Clashes(listings, externalId, product)
    {
      var todo := listings.Keys;
      while todo != {}
        invariant todo <= listings.Keys
        invariant forall e :: e in listings && e !in todo && e != externalId ==> listings[e].product != product
        decreases todo
      {
        var e :| e in todo;
        todo := todo - {e};
        if e != externalId && listings[e].product == product {
          return true;
        }
      }
      found := false;
    }

    method InsertOffers(product: ProductId, added: seq<Offer>)
      modifies `offers
      ensures offers == AddOffers(old(offers), product, added)
    {
      for i := 0 to |added|
        invariant offers == AddOffers(old(offers), product, added[..i])
      {
        offers := offers[OfferKey(product, added[i].externalId) := OfferRow(added[i], true)];
        assert added[..i + 1][..i] == added[..i];
      }
      assert added[..|added|] == added;
    }

    /** The statements for one product; false when one of them fails. */
    method InsertProduct(p: Product) returns (ok: bool)
      modifies `products, `listings, `offers
      ensures ok <==> LoadProduct(old(Shelves()), p).Some?
      ensures ok ==> Some(Shelves()) == LoadProduct(old(Shelves()), p)
    {
      var key := KeyOf(p.slug);
      var clash := FindClash(p.externalId, key);
      if clash {
        return false;
      }
      products := products[key := p.facts];
      listings := listings[p.externalId := Listing(key, p.slug, p.figures, true)];
      InsertOffers(key, p.offers);
      ok := true;
    }

    method InsertProducts(ps: seq<Product>) returns (ok: bool)
      modifies `products, `listings, `offers
      ensures ok <==> LoadProducts(old(Shelves()), ps).Some?
      ensures ok ==> Some(Shelves()) == LoadProducts(old(Shelves()), ps)
    {
      ghost var start := Shelves();
      for i := 0 to |ps|
        invariant LoadProducts(start, ps[..i]) == Some(Shelves())
      {
        assert ps[..i + 1][..i] == ps[..i] && ps[..i + 1][i] == ps[i];
        ok := InsertProduct(ps[i]);
        if !ok {
          FailureStays(start, ps, i + 1);
          return false;
        }
      }
      assert ps[..|ps|] == ps;
      ok := true;
    }

    static lemma {:induction false} FailureStays(t: Tables, ps: seq<Product>, i: nat)
      requires i <= |ps| && LoadProducts(t, ps[..i]).None?
      ensures LoadProducts(t, ps).None?
      decreases |ps| - i
    {
      if i == |ps| {
        assert ps[..i] == ps;
      } else {
        assert ps[..i + 1][..i] == ps[..i];
        FailureStays(t, ps, i + 1);
      }
    }

    /** The transaction behind the lease check. */
    method ReplaceActive(ps: seq<Product>) returns (ok: bool)
      modifies `products, `listings, `offers
      ensures ok <==> Load(old(Shelves()), ps).Some?
      ensures Shelves() == if ok then Load(old(Shelves()), ps).value else old(Shelves())
    {
      var saved := (products, listings, offers);
      listings := map e | e in listings :: listings[e].(active := false);
      offers := map k | k in offers :: offers[k].(active := false);
      assert Shelves() == Cleared(old(Shelves()));
      ok := InsertProducts(ps);
      if !ok {
        products, listings, offers := saved.0, saved.1, saved.2;
      }
    }

    /** upsertSnapshot: one transaction, rolled back if the lease is gone or a statement fails. */
    method UpsertSnapshot(poll: Poll, snapshot: Snapshot, at: int) returns (ok: bool)
      requires Valid() && poll in polls && now <= at
      modifies this
      ensures ok <==> HoldsLease(old(State()), poll) && Load(old(Shelves()), snapshot.products).Some?
      ensures State() == LoadBy(old(State()), poll, snapshot, at)
      ensures Valid() && Leads(topic, old(State()), State())
    {
      TakeStep(topic, State(), LoadPoll(poll, snapshot, at));
      ok := source.leaseToken == Some(poll.token);
      if ok {
        ok := ReplaceActive(snapshot.products);
        loaded := if ok then Some(snapshot) else loaded;
      }
      now := at;
    }

    // -------------------------------------------------------------------------
    // evaluateWatches

    /** SELECT .. WHERE product_id=? AND active=1 ORDER BY price_minor */
    method SelectOffers(product: ProductId) returns (rows: seq<Offer>)
      ensures forall o :: o in rows <==> exists k :: k in offers && k.product == product && offers[k] == OfferRow(o, true)
      ensures Ascending(rows, Price)
    {
      rows := [];
      var todo := offers.Keys;
      while todo != {}
        invariant todo <= offers.Keys && Ascending(rows, Price)
        invariant forall o :: o in rows <==> exists k :: k in offers && k !in todo && k.product == product && offers[k] == OfferRow(o, true)
        decreases todo
      {
        var k :| k in todo;
        ghost var before, rest := rows, todo;
        todo := todo - {k};
        if k.product == product && offers[k].active {
          var o := offers[k].offer;
          InsertKeepsAscending(o, rows, Price);
          InsertAddsOne(o, rows, Price);
          rows := InsertBy(o, rows, Price);
          forall x ensures x in rows <==> x == o || x in before { InsertedMembers(o, before, rows, x); }
        }
        assert forall o :: (exists j :: j in offers && j !in todo && j.product == product && offers[j] == OfferRow(o, true)) <==>
          (k.product == product && offers[k] == OfferRow(o, true)) || exists j :: j in offers && j !in rest && j.product == product && offers[j] == OfferRow(o, true);
      }
    }

    static lemma InsertedMembers(o: Offer, before: seq<Offer>, after: seq<Offer>, x: Offer)
      requires multiset(after) == multiset{o} + multiset(before)
      ensures x in after <==> x == o || x in before
    {
      assert x in after <==> x in multiset(after);
      assert x in before <==> x in multiset(before);
    }

    method FindTarget(w: Watch, at: int) returns (found: Option<Offer>)
      ensures Finds(Shelves(), w, at, found)
    {
      var rows := SelectOffers(w.product);
      found := FindTargetOffer(rows, w.target, w.currency, at);
      TargetIsCheapest(rows, w.target, w.currency, at);
      forall k | k in offers && offers[k].active && k.product == w.product && Wanted(offers[k].offer, w.target, w.currency, at)
        ensures found.Some? && found.value.price <= offers[k].offer.price
      {
        assert offers[k] == OfferRow(offers[k].offer, true);
        assert offers[k].offer in rows;
      }
      if found.Some? { assert found.value in rows; }
    }

    method FindCovering(user: O.UserId) returns (found: bool)
      ensures found <==> Covered(store.dir, topic, user)
    {
      var todo := store.dir.subs.Keys;
      while todo != {}
        invariant todo <= store.dir.subs.Keys
        invariant forall x :: x in store.dir.subs && x !in todo ==> !Covers(store.dir.subs[x], topic, user)
        decreases todo
      {
        var x :| x in todo;
        todo := todo - {x};
        if Covers(store.dir.subs[x], topic, user) {
          return true;
        }
      }
      found := false;
    }

    /** ensureMarketNotificationSubscription; false when it throws. */
    method EnsureMarketSubscription(user: O.UserId, builtin: O.SubId) returns (ok: bool)
      requires store.Valid()
      modifies store
      ensures ok <==> EnsureSubscription(old(store.dir), topic, user, builtin).Some?
      ensures store.Tables() == if ok then old(store.Tables()).(dir := EnsureSubscription(old(store.dir), topic, user, builtin).value) else old(store.Tables())
      ensures store.Valid()
    {
      var dir := store.dir;
      if !Registered(dir, topic) || user !in dir.users {
        return false;
      }
      var covered := FindCovering(user);
      dir := dir.(members := dir.members + {(topic.project, user)});
      if !covered {
        var sub := O.Subscription(user, Some(topic.project), Some(topic.eventType), 1, None, ["in_app"], O.Once, 1800, 1, None, None, O.Merged, true);
        if builtin in dir.subs {
          sub := dir.subs[builtin].(project := sub.project, eventType := sub.eventType, minPriority := 1, channels := sub.channels, enabled := true);
        }
        dir := dir.(subs := dir.subs[builtin := sub]);
      }
      Runs.Take(store.Tables(), O.Configure(dir));
      store.dir := dir;
      ok := true;
    }

    /** SELECT 1 FROM notification_deliveries WHERE event_id=? AND user_id=? AND status IN (..) */
    method HasDelivery(event: nat, user: O.UserId) returns (found: bool)
      ensures found <==> OwnerServed(store.Tables(), event, user)
    {
      var todo := store.rows.Keys;
      while todo != {}
        invariant todo <= store.rows.Keys
        invariant forall r :: r in store.rows && r !in todo ==> !IsDelivery(store.Tables(), r, event, user)
        decreases todo
      {
        var r :| r in todo;
        todo := todo - {r};
        var row := store.rows[r];
        if r.event == event && row.user == user
           && (row.status == O.Pending || row.status == O.Processing || row.status == O.Delivered) {
          assert IsDelivery(store.Tables(), r, event, user);
          return true;
        }
      }
      found := false;
    }

    method SendTarget(id: WatchId, w: Watch, o: Offer, snapshot: string, d: Draw) returns (after: Watch)
      requires store.Valid() && d.event !in store.events && store.now <= d.now
      modifies store
      ensures store.Valid() && Outcome(store.Tables(), after) == Send(topic, old(store.Tables()), id, w, o, snapshot, d)
    {
      var r := NotificationApi.EmitNotification(store, d.event, TargetRequest(topic, id, w, o, snapshot, d), d.clock, d.now);
      if r.Err? {
        return w;
      }
      var served := r.value.deliveries > 0;
      if !served {
        served := HasDelivery(r.value.event, w.user);
      }
      after := if served then w.(state := Met) else w.(attempt := w.attempt + 1);
    }

    method AnnounceTarget(id: WatchId, w: Watch, o: Offer, snapshot: string, d: Draw) returns (after: Watch)
      requires store.Valid() && d.event !in store.events && store.now <= d.now
      modifies store
      ensures store.Valid() && Outcome(store.Tables(), after) == Announce(topic, old(store.Tables()), id, w, o, snapshot, d)
    {
      var ok := EnsureMarketSubscription(w.user, d.builtin);
      if !ok {
        return w;
      }
      after := SendTarget(id, w, o, snapshot, d);
    }

    /** What an evaluation may draw: a fresh event id, the built-in subscription of the user or an unused id, and
        clock readings. */
    ghost predicate Drawn(id: WatchId, d: Draw)
      reads this, store
      requires id in watches
    {
      && d.event !in store.events && now <= d.now
      && (d.builtin in store.dir.subs ==> store.dir.subs[d.builtin].user == watches[id].user)
    }

    /** The rules that evaluateWatches selects. */
    predicate Selected(id: WatchId, product: Option<ProductId>, user: Option<O.UserId>)
      reads this, store
    {
      && id in watches && watches[id].enabled && O.UserActive(store.dir, watches[id].user)
      && (product.None? || watches[id].product == product.value) && (user.None? || watches[id].user == user.value)
    }

    /** One turn of the loop; `lost` when the lease is gone and it throws. */
    method EvaluateWatch(id: WatchId, via: Option<Poll>, snapshot: string, d: Draw) returns (lost: bool, ghost turn: Turn)
      requires Valid() && Selected(id, None, None) && Drawn(id, d)
      requires match via case Some(poll) => poll in polls case None => CurrentSnapshot(source, snapshot)
      modifies this, store
      ensures lost <==> via.Some? && !HoldsLease(old(State()), via.value)
      ensures turn.before == old(State()) && turn.id == id && turn.draw == d && turn.after == State()
      ensures var a := Evaluate(id, via, turn.found, snapshot, d); Possible(topic, turn.before, a) && turn.after == Apply(topic, turn.before, a)
      ensures Valid() && Leads(topic, old(State()), State())
    {
      ghost var before := State();
      OneClock(topic, before);
      var w := watches[id];
      var found := FindTarget(w, d.now);
      TakeStep(topic, before, Evaluate(id, via, found, snapshot, d));
      now := d.now;
      if via.Some? && source.leaseToken != Some(via.value.token) {
        return true, Turn(before, id, found, d, State());
      }
      lost := false;
      var after := w;
      if found.None? {
        if w.state != Waiting || w.attempt != 0 {
          after := w.(state := Waiting, attempt := 0);
        }
      } else if w.state != Met {
        after := AnnounceTarget(id, w, found.value, snapshot, d);
      }
      watches := watches[id := after];
      assert State() == Evaluated(topic, before, id, via, found, snapshot, d);
      turn := Turn(before, id, found, d, State());
    }

    /** Values from outside: random ids, rendered texts, the validator's answer and the clock. */
    method DrawFor(id: WatchId) returns (d: Draw)
      requires id in watches
      ensures Drawn(id, d)
    {
      var event := Unused(store.events.Keys);
      var builtin := Unused(store.dir.subs.Keys);
      var title: string, body: string, schema: E.SchemaVerdict, clock: int := *, *, *, *;
      var at := ReadClock(now);
      d := Draw(event, builtin, title, body, schema, clock, at);
    }

    /** evaluateWatches; false when it throws because the lease is gone. Otherwise every chosen rule has its turn once. */
    method EvaluateWatches(snapshot: string, stale: bool, product: Option<ProductId>, user: Option<O.UserId>, via: Option<Poll>)
      returns (ok: bool, ghost turns: seq<Turn>)
      requires Valid()
      requires match via case Some(poll) => poll in polls case None => CurrentSnapshot(source, snapshot)
      modifies this, store
      ensures Valid() && Leads(topic, old(State()), State()) && Untouched(old(State()), State())
      ensures ok <==> stale || via.None? || HoldsLease(old(State()), via.value)
      ensures if ok then Evaluates(topic, old(State()), State(), turns, via, snapshot, stale, product, user) else State() == old(State())
    {
      LeadsNowhere(topic, State());
      turns := [];
      if stale {
        ok := true;
        return;
      }
      if via.Some? && source.leaseToken != Some(via.value.token) {
        ok := false;
        return;
      }
      ok := true;
      turns := EvaluateAll(snapshot, product, user, via);
    }

    /** What a round of evaluations does not touch. */
    static ghost predicate Untouched(s: System, s': System) {
      s'.polls == s.polls && s'.source == s.source && s'.tables == s.tables && s'.loaded == s.loaded && s.now <= s'.now
    }

    method SelectRules(product: Option<ProductId>, user: Option<O.UserId>) returns (rules: set<WatchId>)
      ensures forall id :: id in rules <==> Chosen(State(), id, product, user)
      ensures forall id :: id in rules ==> Selected(id, product, user)
    {
      rules := set id | id in watches && Selected(id, product, user);
    }

    /** The turns so far have been those of the rules done. */
    static ghost predicate TurnsOf(turns: seq<Turn>, rules: set<WatchId>) {
      && (forall i, j :: 0 <= i < j < |turns| ==> turns[i].id != turns[j].id)
      && (forall id :: id in rules <==> exists i :: 0 <= i < |turns| && turns[i].id == id)
    }

    static lemma TurnsGrow(turns: seq<Turn>, rules: set<WatchId>, turn: Turn)
      requires TurnsOf(turns, rules) && turn.id !in rules
      ensures TurnsOf(turns + [turn], rules + {turn.id})
    {
      var more := turns + [turn];
      assert more[|turns|] == turn;
      forall id | id in rules + {turn.id} ensures exists i :: 0 <= i < |more| && more[i].id == id {
        if id in rules {
          var i :| 0 <= i < |turns| && turns[i].id == id;
          assert more[i].id == id;
        }
      }
      forall i, j | 0 <= i < j < |more| ensures more[i].id != more[j].id {
        assert more[i] == turns[i] && turns[i].id in rules;
      }
      forall i | 0 <= i < |more| ensures more[i].id in rules + {turn.id} {
        if i < |turns| { assert more[i] == turns[i]; }
      }
    }

    static ghost predicate Progress(topic: Topic, turns: seq<Turn>, via: Option<Poll>, snapshot: string, start: System, s: System, rules: set<WatchId>) {
      Round(topic, turns, via, snapshot, start, s) && TurnsOf(turns, rules) && Untouched(start, s) && Leads(topic, start, s)
    }

    static lemma ProgressGrows(topic: Topic, turns: seq<Turn>, via: Option<Poll>, snapshot: string, start: System, rules: set<WatchId>, turn: Turn)
      requires Progress(topic, turns, via, snapshot, start, turn.before, rules) && turn.id !in rules
      requires var a := Evaluate(turn.id, via, turn.found, snapshot, turn.draw); Possible(topic, turn.before, a) && turn.after == Apply(topic, turn.before, a)
      requires Untouched(turn.before, turn.after) && Leads(topic, start, turn.after)
      ensures Progress(topic, turns + [turn], via, snapshot, start, turn.after, rules + {turn.id})
    {
      TurnsGrow(turns, rules, turn);
      RoundGrows(topic, turns, via, snapshot, start, turn);
    }

    static lemma ProgressIsRound(topic: Topic, turns: seq<Turn>, via: Option<Poll>, snapshot: string, start: System, s: System,
                                 rules: set<WatchId>, product: Option<ProductId>, user: Option<O.UserId>)
      requires Progress(topic, turns, via, snapshot, start, s, rules) && forall id :: id in rules <==> Chosen(start, id, product, user)
      ensures Round(topic, turns, via, snapshot, start, s) && EachOnce(turns, start, product, user)
    {
    }

    /** The loop of evaluateWatches, over the rules in whatever order they are returned. */
    method EvaluateAll(snapshot: string, product: Option<ProductId>, user: Option<O.UserId>, via: Option<Poll>) returns (ghost turns: seq<Turn>)
      requires Valid() && (via.Some? ==> HoldsLease(State(), via.value))
      requires match via case Some(poll) => poll in polls case None => CurrentSnapshot(source, snapshot)
      modifies this, store
      ensures Valid() && Leads(topic, old(State()), State()) && Untouched(old(State()), State())
      ensures Round(topic, turns, via, snapshot, old(State()), State()) && EachOnce(turns, old(State()), product, user)
    {
      ghost var start := State();
      LeadsNowhere(topic, start);
      var todo := SelectRules(product, user);
      ghost var all := todo;
      turns := [];
      while todo != {}
        invariant Valid() && Progress(topic, turns, via, snapshot, start, State(), all - todo)
        invariant todo <= all && AllSelected(todo, product, user)
        decreases todo
      {
        var id :| id in todo;
        ghost var done := all - todo;
        todo := todo - {id};
        turns := EvaluateOneMore(start, turns, id, done, todo, via, snapshot, product, user);
        assert all - todo == done + {id};
      }
      assert all - todo == all;
      ProgressIsRound(topic, turns, via, snapshot, start, State(), all, product, user);
    }

    ghost predicate AllSelected(rules: set<WatchId>, product: Option<ProductId>, user: Option<O.UserId>)
      reads this, store
    {
      forall id :: id in rules ==> Selected(id, product, user)
    }

    method EvaluateOneMore(ghost start: System, ghost turns: seq<Turn>, id: WatchId, ghost done: set<WatchId>, ghost rest: set<WatchId>,
                           via: Option<Poll>, snapshot: string, ghost product: Option<ProductId>, ghost user: Option<O.UserId>)
      returns (ghost more: seq<Turn>)
      requires Valid() && Progress(topic, turns, via, snapshot, start, State(), done) && id !in done
      requires Selected(id, product, user) && AllSelected(rest, product, user)
      requires via.Some? ==> HoldsLease(start, via.value)
      requires match via case Some(poll) => poll in start.polls case None => CurrentSnapshot(start.source, snapshot)
      modifies this, store
      ensures Valid() && Progress(topic, more, via, snapshot, start, State(), done + {id})
      ensures AllSelected(rest, product, user)
    {
      ghost var turn := EvaluateNext(start, id, via, snapshot, product, user);
      ProgressGrows(topic, turns, via, snapshot, start, done, turn);
      more := turns + [turn];
    }

    method EvaluateNext(ghost start: System, id: WatchId, via: Option<Poll>, snapshot: string,
                        ghost product: Option<ProductId>, ghost user: Option<O.UserId>) returns (ghost turn: Turn)
      requires Valid() && Selected(id, product, user) && Leads(topic, start, State()) && (via.Some? ==> HoldsLease(State(), via.value))
      requires match via case Some(poll) => poll in polls case None => CurrentSnapshot(source, snapshot)
      modifies this, store
      ensures Valid() && Leads(topic, start, State()) && Untouched(old(State()), State())
      ensures turn.before == old(State()) && turn.id == id && turn.after == State()
      ensures var a := Evaluate(id, via, turn.found, snapshot, turn.draw); Possible(topic, turn.before, a) && turn.after == Apply(topic, turn.before, a)
      ensures forall other :: old(Selected(other, product, user)) ==> Selected(other, product, user)
    {
      ghost var before := State();
      var d := DrawFor(id);
      var lost;
      lost, turn := EvaluateWatch(id, via, snapshot, d);
      LeadsTogether(topic, start, before, State());
      EvaluationKeepsRules(topic, before, id, via, turn.found, snapshot, d);
      assert RulesKept(before, State());
    }

    /** evaluateCurrentMarketWatches */
    method EvaluateCurrent(product: Option<ProductId>, user: Option<O.UserId>) returns (ghost turns: seq<Turn>)
      requires Valid()
      modifies this, store
      ensures Valid() && Leads(topic, old(State()), State()) && source == old(source)
      ensures Reevaluates(topic, old(State()), State(), turns, product, user)
    {
      LeadsNowhere(topic, State());
      turns := [];
      if source.lastSnapshot.None? || source.stale || source.status != Healthy {
        return;
      }
      var ok;
      ok, turns := EvaluateWatches(source.lastSnapshot.value, false, product, user, None);
    }

    // -------------------------------------------------------------------------
    // The worker

    /** The fetch. While it is awaited other code may take any actions. */
    method AwaitFetch(poll: Poll) returns (fetched: Fetched)
      requires Valid() && poll in polls
      modifies this, store
      ensures Valid() && poll in polls && Leads(topic, old(State()), State()) && fetched == fetches(poll)
    {
      LeadsNowhere(topic, State());
      fetched := fetches(poll);
    }

    method FinishPoll(poll: Poll, changes: Changes, since: int) returns (released: bool)
      requires Valid() && poll in polls && now <= since
      modifies this
      ensures Valid() && Leads(topic, old(State()), State()) && polls == old(polls)
      ensures released <==> HoldsLease(old(State()), poll)
      ensures since <= now && State() == Release(old(State()), poll, changes, now)
    {
      var later := ReadClock(since);
      released := ReleaseSource(poll, changes, later);
    }

    /** Evaluation and release, once the snapshot is in place; false when one of them throws. */
    method EvaluateAndRelease(poll: Poll, snapshot: string, stale: bool, published: Option<string>) returns (ok: bool, ghost turns: seq<Turn>)
      requires Valid() && poll in polls
      modifies this, store
      ensures Valid() && Leads(topic, old(State()), State()) && polls == old(polls)
      ensures ok <==> HoldsLease(old(State()), poll)
      ensures if ok then Concluded(topic, old(State()), State(), poll, turns, snapshot, stale, published) else State() == old(State()).(now := now) && old(now) <= now
    {
      ok, turns := EvaluateWatches(snapshot, stale, None, None, Some(poll));
      if ok {
        ghost var evaluated := State();
        var success := ReadClock(now);
        var changes := Changes(if stale then Stale else Healthy, stale, Some(success), Some(snapshot), published, None);
        ok := FinishPoll(poll, changes, success);
        ReleaseMeans(evaluated, poll, changes, now);
        LeadsTogether(topic, old(State()), evaluated, State());
      }
    }

    /** The part of pollClaimedSource before its catch block; `error` is what it throws. */
    method UsePoll(poll: Poll, fetched: Fetched) returns (error: Option<string>, ghost turns: seq<Turn>)
      requires Valid() && poll in polls
      modifies this, store
      ensures Valid() && Leads(topic, old(State()), State()) && polls == old(polls)
      ensures error.None? ==> HoldsLease(old(State()), poll) && Polled(topic, old(State()), State(), poll, fetched, turns)
      ensures error.Some? ==>
        && old(now) <= now && State() == old(State()).(now := now)
        && (HoldsLease(old(State()), poll) ==>
              match fetched
              case FetchFailed(e) => error == Some(e)
              case Unchanged(_) => false
              case Fresh(snapshot) => Load(old(Shelves()), snapshot.products).None?)
    {
      LeadsNowhere(topic, State());
      turns := [];
      error := Some("Market source lease was lost");
      ghost var start := State();
      match fetched {
        case FetchFailed(e) =>
          error := Some(e);
        case Unchanged(id) =>
          var ok;
          ok, turns := EvaluateAndRelease(poll, id, poll.row.stale, None);
          if ok { error := None; }
        case Fresh(snapshot) =>
          var at := ReadClock(now);
          var ok := UpsertSnapshot(poll, snapshot, at);
          if ok {
            ghost var loaded := State();
            ok, turns := EvaluateAndRelease(poll, snapshot.id, snapshot.stale, Some(snapshot.publishedAt));
            LeadsTogether(topic, start, loaded, State());
            if ok { error := None; }
          }
      }
    }

    /** pollClaimedSource: load, evaluate, release; on any error release with that error. It leaves exactly what its
        fetch calls for, and without the lease nothing at all. */
    method PollClaimedSource(poll: Poll) returns (ghost answered: System, ghost turns: seq<Turn>)
      requires Valid() && poll in polls
      modifies this, store
      ensures Valid() && Leads(topic, old(State()), State())
      ensures Leads(topic, old(State()), answered) && Polled(topic, answered, State(), poll, fetches(poll), turns)
    {
      var fetched := AwaitFetch(poll);
      answered := State();
      var error;
      error, turns := UsePoll(poll, fetched);
      LeadsTogether(topic, old(State()), answered, State());
      if error.Some? {
        ghost var failing := State();
        var changes := Changes(Broken, poll.row.stale, None, None, None, Some(Cut(error.value, 1000)));
        var released := FinishPoll(poll, changes, now);
        ReleaseMeans(failing, poll, changes, now);
        LeadsTogether(topic, old(State()), failing, State());
      }
    }

    /** runMarketPoll */
    method RunMarketPoll(force: bool, token: Token) returns (ghost answered: System, ghost turns: seq<Turn>)
      requires Valid() && token !in tokens
      modifies this, store
      ensures Valid() && Leads(topic, old(State()), State())
      ensures old(activePoll) ==> State() == old(State())
      ensures State() == old(State()) || exists at, later :: Ran(old(State()), force, token, at, later, answered, turns)
    {
      LeadsNowhere(topic, State());
      answered, turns := State(), [];
      if activePoll {
        return;
      }
      ghost var start := State();
      var at := ReadClock(now);
      var later := ReadClock(at);
      var poll := ClaimSource(force, token, at, later);
      if poll.None? {
        return;
      }
      ghost var claimed := State();
      activePoll := true;
      answered, turns := PollClaimedSource(poll.value);
      activePoll := false;
      LeadsTogether(topic, old(State()), claimed, State());
      assert Ran(start, force, token, at, later, answered, turns);
    }

    /** The source was claimed and the poll carried out. */
    ghost predicate Ran(start: System, force: bool, token: Token, at: int, later: int, answered: System, turns: seq<Turn>)
      reads this, store
    {
      var claimed := Claim(start, token, at, later);
      var poll := Poll(token, claimed.source);
      && start.now <= at <= later && Pollable(start.source, force, at)
      && Leads(topic, claimed, answered) && Polled(topic, answered, State(), poll, fetches(poll), turns)
    }

    // -------------------------------------------------------------------------
    // The watch handlers

    method CreateRule(id: WatchId, user: O.UserId, product: ProductId, name: string, target: nat, currency: string, enabled: bool) returns (reply: Reply)
      requires Valid() && id !in watches && id !in retired && target > 0
      modifies this
      ensures reply == NoProduct <==> product !in products
      ensures reply == LimitReached <==> product in products && enabled && |EnabledRules(old(watches), user)| >= WATCH_LIMIT
      ensures reply == AlreadyThere <==>
        && product in products && !(enabled && |EnabledRules(old(watches), user)| >= WATCH_LIMIT)
        && exists other :: other in old(watches) && old(watches)[other].user == user && old(watches)[other].product == product
      ensures reply == Done <==> watches == old(watches)[id := Watch(user, product, name, target, currency, enabled, Waiting, 0)]
      ensures reply == Done ==> State() == old(State()).(watches := watches)
      ensures reply != Done ==> State() == old(State())
      ensures Valid() && Leads(topic, old(State()), State())
    {
      LeadsNowhere(topic, State());
      if product !in products {
        return NoProduct;
      }
      if enabled && |EnabledRules(watches, user)| >= WATCH_LIMIT {
        return LimitReached;
      }
      var taken := FindRule(user, product);
      if taken {
        return AlreadyThere;
      }
      var w := Watch(user, product, name, target, currency, enabled, Waiting, 0);
      TakeStep(topic, State(), CreateWatch(id, w));
      watches := watches[id := w];
      reply := Done;
    }

    /** POST /api/market/watches: insert the rule, make sure its owner is subscribed, evaluate it against the
        current snapshot. */
    method PostWatch(id: WatchId, user: O.UserId, product: ProductId, name: string, target: nat, currency: string, enabled: bool, builtin: O.SubId)
      returns (reply: Reply, ghost turns: seq<Turn>)
      requires Valid() && id !in watches && id !in retired && target > 0
      requires builtin in store.dir.subs ==> store.dir.subs[builtin].user == user
      modifies this, store
      ensures Valid() && Leads(topic, old(State()), State())
      ensures reply != Done ==> State() == old(State())
      ensures reply == Done ==>
        var created := old(State()).(watches := old(watches)[id := Watch(user, product, name, target, currency, enabled, Waiting, 0)]);
        match EnsureSubscription(created.out.dir, topic, user, builtin)
        case None => State() == created
        case Some(dir) => Reevaluates(topic, created.(out := created.out.(dir := dir)), State(), turns, Some(product), Some(user))
    {
      ghost var start := State();
      turns := [];
      reply := CreateRule(id, user, product, name, target, currency, enabled);
      if reply != Done {
        return;
      }
      ghost var created := State();
      var subscribed := EnsureMarketSubscription(user, builtin);
      if subscribed {
        EnsureIsStep(topic, created, user, builtin);
        LeadsTogether(topic, start, created, State());
        ghost var ready := State();
        turns := EvaluateCurrent(Some(product), Some(user));
        LeadsTogether(topic, start, ready, State());
      }
    }

    /** PATCH /api/market/watches/:id, with its evaluation. */
    method PatchWatchRule(id: WatchId, actor: O.UserId, admin: bool, target: Option<nat>, enabled: Option<bool>)
      returns (reply: Reply, ghost turns: seq<Turn>)
      requires Valid() && (target.Some? ==> target.value > 0)
      modifies this, store
      ensures Valid() && Leads(topic, old(State()), State())
      ensures reply != Done ==> State() == old(State())
      ensures reply == Done ==>
        && id in old(watches)
        && var w := Reworked(old(watches)[id], target, enabled);
           var patched := old(State()).(watches := old(watches)[id := w]);
           if w.enabled then Reevaluates(topic, patched, State(), turns, Some(w.product), Some(w.user)) else State() == patched
    {
      ghost var start := State();
      turns := [];
      reply := PatchRule(id, actor, admin, target, enabled);
      if reply == Done && watches[id].enabled {
        ghost var patched := State();
        turns := EvaluateCurrent(Some(watches[id].product), Some(watches[id].user));
        LeadsTogether(topic, start, patched, State());
      }
    }

    /** UNIQUE (user_id, product_id) */
    method FindRule(user: O.UserId, product: ProductId) returns (found: bool)
      ensures found <==> exists id :: id in watches && watches[id].user == user && watches[id].product == product
    {
      var todo := watches.Keys;
      while todo != {}
        invariant todo <= watches.Keys
        invariant forall id :: id in watches && id !in todo ==> watches[id].user != user || watches[id].product != product
        decreases todo
      {
        var id :| id in todo;
        todo := todo - {id};
        if watches[id].user == user && watches[id].product == product {
          return true;
        }
      }
      found := false;
    }

    /** PATCH /api/market/watches/:id, before its evaluation. */
    method PatchRule(id: WatchId, actor: O.UserId, admin: bool, target: Option<nat>, enabled: Option<bool>) returns (reply: Reply)
      requires Valid() && (target.Some? ==> target.value > 0)
      modifies this
      ensures reply == NotFound <==> id !in old(watches)
      ensures reply == Forbidden <==> id in old(watches) && old(watches)[id].user != actor && !admin
      ensures reply == LimitReached <==>
        && id in old(watches) && (old(watches)[id].user == actor || admin)
        && enabled == Some(true) && !old(watches)[id].enabled && |EnabledRules(old(watches), old(watches)[id].user)| >= WATCH_LIMIT
      ensures reply == Done ==> id in watches && State() == old(State()).(watches := old(watches)[id := Reworked(old(watches)[id], target, enabled)])
      ensures reply != Done ==> State() == old(State())
      ensures Valid() && Leads(topic, old(State()), State())
    {
      LeadsNowhere(topic, State());
      if id !in watches {
        return NotFound;
      }
      var w := watches[id];
      if w.user != actor && !admin {
        return Forbidden;
      }
      if enabled == Some(true) && !w.enabled && |EnabledRules(watches, w.user)| >= WATCH_LIMIT {
        return LimitReached;
      }
      TakeStep(topic, State(), PatchWatch(id, target, enabled));
      var reset := target.Some? && target.value != w.target;
      w := w.(target := if target.Some? then target.value else w.target, enabled := if enabled.Some? then enabled.value else w.enabled);
      if reset {
        w := w.(state := Waiting, attempt := 0);
      }
      watches := watches[id := w];
      reply := Done;
    }

    /** DELETE /api/market/watches/:id */
    method DeleteRule(id: WatchId, actor: O.UserId, admin: bool) returns (reply: Reply)
      requires Valid()
      modifies this
      ensures reply == NotFound <==> id !in old(watches)
      ensures reply == Forbidden <==> id in old(watches) && old(watches)[id].user != actor && !admin
      ensures watches == if reply == Done then old(watches) - {id} else old(watches)
      ensures Valid() && Leads(topic, old(State()), State())
    {
      LeadsNowhere(topic, State());
      if id !in watches {
        return NotFound;
      }
      if watches[id].user != actor && !admin {
        return Forbidden;
      }
      TakeStep(topic, State(), DeleteWatch(id));
      watches, retired := watches - {id}, retired + {id};
      reply := Done;
    }
  }
}
