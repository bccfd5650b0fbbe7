/** The market poller and the procurement rules as one state machine on top of the notification outbox
    (apps/server/src/market-service.ts and the watch handlers of apps/server/src/routes/market.ts). */
module Market {
  import opened Wrappers
  import opened MarketOffers
  import opened MarketSnapshot
  import opened MarketSubscription
  import Incidents
  import O = Outbox
  import E = Emission
  import StableJson

  type Token = nat
  type WatchId = nat

  const SOURCE_LEASE_MS: int := 90_000
  const WATCH_LIMIT: nat := 10

  datatype SourceStatus = Untried | Healthy | Stale | Broken

  datatype Source = Source(
    enabled: bool,
    interval: int,
    nextPollAt: int,
    lastAttemptAt: Option<int>,
    lastSuccessAt: Option<int>,
    lastSnapshot: Option<string>,
    lastPublished: Option<string>,
    status: SourceStatus,
    stale: bool,
    lastError: Option<string>,
    leaseUntil: Option<int>,
    leaseToken: Option<Token>)

  datatype WatchState = Waiting | Met | Unknown

  datatype Watch = Watch(user: O.UserId, product: ProductId, name: string, target: int, currency: string, enabled: bool, state: WatchState, attempt: nat)

  /** A worker's poll: its lease token, and the source row as it claimed it. */
  datatype Poll = Poll(token: Token, row: Source)

  /** `loaded` is history: the last snapshot whose load was committed. `tokens` are all lease tokens ever drawn,
      `retired` the ids of deleted rules. */
  datatype System = System(
    now: int,
    source: Source,
    tables: Tables,
    loaded: Option<Snapshot>,
    watches: map<WatchId, Watch>,
    retired: set<WatchId>,
    out: O.State,
    polls: set<Poll>,
    tokens: set<Token>)

  // ---------------------------------------------------------------------------
  // Claiming and releasing the source

  predicate Pollable(source: Source, force: bool, now: int) {
    source.enabled && (source.leaseUntil.None? || source.leaseUntil.value < now) && (force || source.nextPollAt <= now)
  }

  function Leased(source: Source, token: Token, now: int, later: int): Source {
    source.(leaseUntil := Some(later + SOURCE_LEASE_MS), leaseToken := Some(token), lastAttemptAt := Some(now))
  }

  /** claimSource, where it succeeds. */
  function Claim(s: System, token: Token, now: int, later: int): System {
    var row := Leased(s.source, token, now, later);
    s.(now := later, source := row, polls := s.polls + {Poll(token, row)}, tokens := s.tokens + {token})
  }

  predicate HoldsLease(s: System, poll: Poll) {
    s.source.leaseToken == Some(poll.token)
  }

  datatype Changes = Changes(status: SourceStatus, stale: bool, success: Option<int>, snapshot: Option<string>, published: Option<string>, error: Option<string>)

  function Or<T>(a: Option<T>, b: Option<T>): Option<T> {
    if a.Some? then a else b
  }

  /** releaseSource */
  function Release(s: System, poll: Poll, c: Changes, later: int): System {
    if !HoldsLease(s, poll) then s.(now := later)
    else
      s.(now := later,
         source := s.source.(status := c.status, stale := c.stale,
           lastSuccessAt := Or(c.success, s.source.lastSuccessAt), lastSnapshot := Or(c.snapshot, s.source.lastSnapshot),
           lastPublished := Or(c.published, s.source.lastPublished), lastError := c.error,
           nextPollAt := later + poll.row.interval * 1000, leaseUntil := None, leaseToken := None))
  }

  /** upsertSnapshot, by a worker that has fetched a snapshot: nothing happens without the lease, or when the
      transaction is rolled back. */
  function LoadBy(s: System, poll: Poll, snapshot: Snapshot, now: int): System {
    var s1 := s.(now := now);
    if !HoldsLease(s, poll) then s1
    else
      match Load(s.tables, snapshot.products)
      case None => s1
      case Some(tables) => s1.(tables := tables, loaded := Some(snapshot))
  }

  // ---------------------------------------------------------------------------
  // Procurement rules

  /** The active offer that a rule finds, if any: the cheapest qualifying one. */
  ghost predicate Finds(t: Tables, w: Watch, now: int, found: Option<Offer>) {
    match found
    case None => forall k :: k in t.offers && t.offers[k].active && k.product == w.product ==> !Wanted(t.offers[k].offer, w.target, w.currency, now)
    case Some(o) =>
      && Wanted(o, w.target, w.currency, now)
      && (exists k :: k in t.offers && t.offers[k] == OfferRow(o, true) && k.product == w.product)
      && (forall k ::
            k in t.offers && t.offers[k].active && k.product == w.product && Wanted(t.offers[k].offer, w.target, w.currency, now)
            ==> o.price <= t.offers[k].offer.price)
  }

  function WatchKey(id: WatchId, snapshot: string, attempt: nat): string {
    "watch:" + E.Digits(id) + ":snapshot:" + snapshot + ":attempt:" + E.Digits(attempt)
  }

  function Cut(s: string, length: nat): string {
    if |s| <= length then s else s[..length]
  }

  /** Prices are shown with two decimals. */
  function Decimal(minor: nat): string {
    E.Digits(minor / 100) + "." + (if minor % 100 < 10 then "0" else "") + E.Digits(minor % 100)
  }

  function TargetData(w: Watch, o: Offer, snapshot: string): StableJson.Json {
    var store := if o.storeName.Some? then o.storeName.value else o.sourceName;
    StableJson.Obj(
      StableJson.Field("productName", StableJson.Str(Cut(w.name, 200)),
        StableJson.Field("price", StableJson.Str(Decimal(o.price)),
          StableJson.Field("currency", StableJson.Str(o.currency),
            StableJson.Field("storeName", StableJson.Str(Cut(store, 200)),
              StableJson.Field("offerTitle", StableJson.Str(Cut(o.title, 500)),
                StableJson.Field("offerUrl", StableJson.Str(o.url),
                  StableJson.Field("stock", E.NumberOrNull(o.stock),
                    StableJson.Field("snapshotId", StableJson.Str(snapshot), StableJson.End)))))))))
  }

  /** What one evaluation draws from outside: the id of the event it may store, the id of the built-in
      subscription, the rendered texts, the validator's answer and its clock readings. */
  datatype Draw = Draw(event: nat, builtin: O.SubId, title: string, body: string, schema: E.SchemaVerdict, clock: int, now: int)

  function TargetRequest(topic: Topic, id: WatchId, w: Watch, o: Offer, snapshot: string, d: Draw): E.Request {
    E.Request(Some(topic.eventType), TargetData(w, o, snapshot), Some(EVENT_PRIORITY), d.title, d.body, None,
              Some(WatchKey(id, snapshot, w.attempt)), None, Some(w.user), d.schema, true)
  }

  /** SELECT .. status IN ('pending', 'processing', 'delivered') */
  predicate IsDelivery(out: O.State, r: O.RowKey, event: nat, user: O.UserId) {
    && r in out.rows && r.event == event && out.rows[r].user == user
    && (out.rows[r].status == O.Pending || out.rows[r].status == O.Processing || out.rows[r].status == O.Delivered)
  }

  predicate OwnerServed(out: O.State, event: nat, user: O.UserId) {
    exists r :: r in out.rows && IsDelivery(out, r, event, user)
  }

  /** What one evaluation leaves behind: the outbox and the rule. */
  datatype Outcome = Outcome(out: O.State, watch: Watch)

  /** The emission of one rule: on an error the rule stays as it is, for a later snapshot to retry. */
  ghost function Announce(topic: Topic, out: O.State, id: WatchId, w: Watch, o: Offer, snapshot: string, d: Draw): Outcome {
    match EnsureSubscription(out.dir, topic, w.user, d.builtin)
    case None => Outcome(out, w)
    case Some(dir) => Send(topic, out.(dir := dir), id, w, o, snapshot, d)
  }

  ghost function Send(topic: Topic, out: O.State, id: WatchId, w: Watch, o: Offer, snapshot: string, d: Draw): Outcome {
    var (after, r) := E.EmitRequest(out, d.event, TargetRequest(topic, id, w, o, snapshot, d), d.clock, d.now);
    match r
    case Err(_) => Outcome(after, w)
    case Ok(receipt) =>
      if receipt.deliveries > 0 || OwnerServed(after, receipt.event, w.user)
      then Outcome(after, w.(state := Met)) else Outcome(after, w.(attempt := w.attempt + 1))
  }

  /** One turn of evaluateWatches. */
  ghost function Judge(topic: Topic, out: O.State, id: WatchId, w: Watch, found: Option<Offer>, snapshot: string, d: Draw): Outcome {
    match found
    case None => Outcome(out, w.(state := Waiting, attempt := 0))
    case Some(o) => if w.state == Met then Outcome(out, w) else Announce(topic, out, id, w, o, snapshot, d)
  }

  ghost function Evaluated(topic: Topic, s: System, id: WatchId, via: Option<Poll>, found: Option<Offer>, snapshot: string, d: Draw): System
    requires id in s.watches
  {
    if via.Some? && !HoldsLease(s, via.value) then s.(now := d.now)
    else
      var outcome := Judge(topic, s.out, id, s.watches[id], found, snapshot, d);
      s.(now := d.now, out := outcome.out, watches := s.watches[id := outcome.watch])
  }

  predicate Edits(w: Watch, target: Option<int>) {
    target.Some? && target.value != w.target
  }

  /** PATCH /api/market/watches/:id */
  function Patched(w: Watch, target: Option<int>, enabled: Option<bool>): Watch {
    var w1 := w.(target := if target.Some? then target.value else w.target, enabled := if enabled.Some? then enabled.value else w.enabled);
    if Edits(w, target) then w1.(state := Waiting, attempt := 0) else w1
  }

  function EnabledRules(watches: map<WatchId, Watch>, user: O.UserId): set<WatchId> {
    set id | id in watches && watches[id].user == user && watches[id].enabled
  }

  // ---------------------------------------------------------------------------
  // Runs

  datatype Action =
    | ClaimPoll(force: bool, token: Token, now: int, later: int)
    | LoadPoll(poll: Poll, snapshot: Snapshot, now: int)
    | Evaluate(id: WatchId, via: Option<Poll>, found: Option<Offer>, snapshotId: string, draw: Draw)
    | ReleasePoll(poll: Poll, changes: Changes, later: int)
    | CreateWatch(id: WatchId, watch: Watch)
    | PatchWatch(id: WatchId, target: Option<int>, enabled: Option<bool>)
    | DeleteWatch(id: WatchId)
    | Elsewhere(out: O.State)

  /** A current evaluation, by a watch handler, reads the snapshot id of a healthy source. */
  predicate CurrentSnapshot(source: Source, snapshot: string) {
    source.lastSnapshot == Some(snapshot) && !source.stale && source.status == Healthy
  }

  ghost predicate Possible(topic: Topic, s: System, a: Action) {
    match a
    case ClaimPoll(force, token, now, later) => token !in s.tokens && s.now <= now <= later && Pollable(s.source, force, now)
    case LoadPoll(poll, _, now) => poll in s.polls && s.now <= now
    case Evaluate(id, via, found, snapshot, d) =>
      && id in s.watches && s.watches[id].enabled && O.UserActive(s.out.dir, s.watches[id].user)
      && (match via case Some(poll) => poll in s.polls case None => CurrentSnapshot(s.source, snapshot))
      && Finds(s.tables, s.watches[id], d.now, found)
      && d.event !in s.out.events && s.now <= d.now
      && (d.builtin in s.out.dir.subs ==> s.out.dir.subs[d.builtin].user == s.watches[id].user)
    case ReleasePoll(poll, _, later) => poll in s.polls && s.now <= later
    case CreateWatch(id, watch) =>
      && id !in s.watches && id !in s.retired && watch.product in s.tables.products && watch.target > 0
      && watch.state == Waiting && watch.attempt == 0
      && (watch.enabled ==> |EnabledRules(s.watches, watch.user)| < WATCH_LIMIT)
      && (forall other :: other in s.watches ==> s.watches[other].user != watch.user || s.watches[other].product != watch.product)
    case PatchWatch(id, target, enabled) =>
      && id in s.watches && (target.Some? ==> target.value > 0)
      && (enabled == Some(true) && !s.watches[id].enabled ==> |EnabledRules(s.watches, s.watches[id].user)| < WATCH_LIMIT)
    case DeleteWatch(id) => id in s.watches
    case Elsewhere(out) =>
      && O.Next(s.out, out) && O.ClockFits(s.now, s.out, out) && ChannelsKnown(out.dir)
      && (topic.eventType in out.dir.types ==> out.dir.types[topic.eventType].lifecycle == Incidents.Plain)
  }

  ghost function Apply(topic: Topic, s: System, a: Action): System
    requires Possible(topic, s, a)
  {
    match a
    case ClaimPoll(_, token, now, later) => Claim(s, token, now, later)
    case LoadPoll(poll, snapshot, now) => LoadBy(s, poll, snapshot, now)
    case Evaluate(id, via, found, snapshot, d) => Evaluated(topic, s, id, via, found, snapshot, d)
    case ReleasePoll(poll, changes, later) => Release(s, poll, changes, later)
    case CreateWatch(id, watch) => s.(watches := s.watches[id := watch])
    case PatchWatch(id, target, enabled) => s.(watches := s.watches[id := Patched(s.watches[id], target, enabled)])
    case DeleteWatch(id) => s.(watches := s.watches - {id}, retired := s.retired + {id})
    case Elsewhere(out) => s.(now := O.Later(s.now, out.now), out := out)
  }

  ghost predicate Initial(topic: Topic, s: System) {
    && s.tables == Tables(map[], map[], map[]) && s.loaded == None && s.watches == map[] && s.retired == {}
    && s.polls == {} && s.tokens == {} && s.source.leaseToken.None?
    && O.Initial(s.out) && s.out.now <= s.now && ChannelsKnown(s.out.dir)
    && (topic.eventType in s.out.dir.types ==> s.out.dir.types[topic.eventType].lifecycle == Incidents.Plain)
  }

  datatype Run = Run(topic: Topic, states: seq<System>, actions: seq<Action>)
  {
    ghost predicate StepOk(i: nat)
      requires i < |actions| && |states| == |actions| + 1
    {
      Possible(topic, states[i], actions[i]) && states[i + 1] == Apply(topic, states[i], actions[i])
    }

    ghost predicate Valid() {
      && |states| == |actions| + 1 && Initial(topic, states[0])
      && forall i {:trigger StepOk(i)} :: 0 <= i < |actions| ==> StepOk(i)
    }
  }
}
