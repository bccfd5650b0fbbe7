/** Polls of the market source: when they may start, what one leaves behind, and which rules it evaluates
    (apps/server/src/market-service.ts, claimSource to runMarketPoll), told from the source row and the tables. */
module MarketPolls {
  import opened Wrappers
  import opened MarketOffers
  import opened MarketSnapshot
  import opened MarketSubscription
  import opened Market
  import opened MarketRuns
  import O = Outbox

  // ---------------------------------------------------------------------------
  // Claims and releases

  /** A claim needs an enabled source that nobody holds - or no longer - and, unless it is forced, whose time has come;
      it takes the source for ninety seconds. */
  lemma ClaimMeans(s: System, force: bool, token: Token, now: int, later: int)
    ensures Pollable(s.source, force, now) <==>
      && s.source.enabled && (s.source.nextPollAt <= now || force)
      && (forall t :: s.source.leaseUntil == Some(t) ==> t < now)
    ensures var s' := Claim(s, token, now, later);
      && s'.source == s.source.(leaseUntil := Some(later + 90_000), leaseToken := Some(token), lastAttemptAt := Some(now))
      && s'.polls == s.polls + {Poll(token, s'.source)} && s' == s.(now := later, source := s'.source, polls := s'.polls, tokens := s.tokens + {token})
  {
    assert s.source.leaseUntil.Some? ==> s.source.leaseUntil == Some(s.source.leaseUntil.value);
  }

  /** The source after its holder has let go of it: the next poll is due one interval later. */
  ghost predicate Closed(s: System, s': System, poll: Poll, status: SourceStatus, stale: bool, error: Option<string>) {
    && s'.source == s.source.(status := status, stale := stale, lastError := error, lastSuccessAt := s'.source.lastSuccessAt,
         lastSnapshot := s'.source.lastSnapshot, lastPublished := s'.source.lastPublished,
         nextPollAt := s'.now + poll.row.interval * 1000, leaseUntil := None, leaseToken := None)
  }

  ghost predicate LetGo(s: System, a: Action) {
    a.ReleasePoll? && s.source.leaseToken == Some(a.poll.token)
  }

  lemma ReleaseMeans(s: System, poll: Poll, c: Changes, later: int)
    ensures var s' := Release(s, poll, c, later);
      && s' == s.(now := later, source := s'.source)
      && (if s.source.leaseToken == Some(poll.token) then
            && Closed(s, s', poll, c.status, c.stale, c.error)
            && s'.source.lastSuccessAt == (if c.success.Some? then c.success else s.source.lastSuccessAt)
            && s'.source.lastSnapshot == (if c.snapshot.Some? then c.snapshot else s.source.lastSnapshot)
            && s'.source.lastPublished == (if c.published.Some? then c.published else s.source.lastPublished)
          else s'.source == s.source)
  {
  }

  /** The lease of a claim still stands, or has run out. */
  ghost predicate LeaseStands(s: System, until: int) {
    s.source.leaseUntil == Some(until) || until < s.now
  }

  lemma LeaseStep(topic: Topic, s: System, a: Action, until: int)
    requires Possible(topic, s, a) && LeaseStands(s, until) && !LetGo(s, a)
    ensures LeaseStands(Apply(topic, s, a), until) && s.now <= Apply(topic, s, a).now
  {
    match a {
      case ClaimPoll(force, token, now, later) => ClaimMeans(s, force, token, now, later);
      case ReleasePoll(poll, c, later) => ReleaseMeans(s, poll, c, later);
      case _ =>
    }
  }

  lemma {:induction false} LeaseUntil(run: Run, i: nat, j: nat)
    requires run.Valid() && i < j < |run.states| && run.actions[i].ClaimPoll?
    requires forall k :: i < k < j ==> !LetGo(run.states[k], run.actions[k])
    ensures LeaseStands(run.states[j], run.actions[i].later + 90_000)
    decreases j
  {
    if j == i + 1 {
      assert run.StepOk(i);
      var a := run.actions[i];
      ClaimMeans(run.states[i], a.force, a.token, a.now, a.later);
    } else {
      LeaseUntil(run, i, j - 1);
      assert run.StepOk(j - 1);
      LeaseStep(run.topic, run.states[j - 1], run.actions[j - 1], run.actions[i].later + 90_000);
    }
  }

  /** Two polls start more than ninety seconds apart unless the holder lets go of the source in between. */
  lemma PollsAreApart(run: Run, i: nat, j: nat)
    requires run.Valid() && i < j < |run.actions| && run.actions[i].ClaimPoll? && run.actions[j].ClaimPoll?
    ensures run.actions[i].later + 90_000 < run.actions[j].now || exists k :: i < k < j && LetGo(run.states[k], run.actions[k])
  {
    if forall k :: i < k < j ==> !LetGo(run.states[k], run.actions[k]) {
      LeaseUntil(run, i, j);
      assert run.StepOk(j);
      var a := run.actions[j];
      ClaimMeans(run.states[j], a.force, a.token, a.now, a.later);
    }
  }

  lemma {:induction false} NextPollStays(run: Run, i: nat, j: nat)
    requires run.Valid() && i <= j < |run.states|
    requires forall k :: i <= k < j ==> !LetGo(run.states[k], run.actions[k])
    ensures run.states[j].source.nextPollAt == run.states[i].source.nextPollAt
    decreases j
  {
    if i < j {
      NextPollStays(run, i, j - 1);
      assert run.StepOk(j - 1);
    }
  }

  /** After a release the worker waits a whole interval of the source; only a forced poll does not. */
  lemma RegularPollsAreSpaced(run: Run, i: nat, j: nat)
    requires run.Valid() && i < j < |run.actions| && LetGo(run.states[i], run.actions[i])
    requires forall k :: i < k < j ==> !LetGo(run.states[k], run.actions[k])
    requires run.actions[j].ClaimPoll? && !run.actions[j].force
    ensures run.actions[i].later + run.actions[i].poll.row.interval * 1000 <= run.actions[j].now
  {
    assert run.StepOk(i);
    var a, b := run.actions[i], run.actions[j];
    ReleaseMeans(run.states[i], a.poll, a.changes, a.later);
    NextPollStays(run, i + 1, j);
    assert run.StepOk(j);
    ClaimMeans(run.states[j], b.force, b.token, b.now, b.later);
  }

  // ---------------------------------------------------------------------------
  // A round of evaluations

  /** One evaluation: the states around it, its rule, what it found and what it drew. */
  datatype Turn = Turn(before: System, id: WatchId, found: Option<Offer>, draw: Draw, after: System)

  /** Evaluations that follow one another without a gap. */
  ghost predicate Round(topic: Topic, turns: seq<Turn>, via: Option<Poll>, snapshot: string, start: System, end: System) {
    if turns == [] then start == end
    else
      var last := turns[|turns| - 1];
      var a := Evaluate(last.id, via, last.found, snapshot, last.draw);
      && Round(topic, turns[..|turns| - 1], via, snapshot, start, last.before)
      && Possible(topic, last.before, a) && last.after == Apply(topic, last.before, a) && last.after == end
  }

  lemma RoundGrows(topic: Topic, turns: seq<Turn>, via: Option<Poll>, snapshot: string, start: System, turn: Turn)
    requires Round(topic, turns, via, snapshot, start, turn.before)
    requires var a := Evaluate(turn.id, via, turn.found, snapshot, turn.draw); Possible(topic, turn.before, a) && turn.after == Apply(topic, turn.before, a)
    ensures Round(topic, turns + [turn], via, snapshot, start, turn.after)
  {
    assert (turns + [turn])[..|turns|] == turns;
  }

  /** The rules that evaluateWatches selects: enabled, of an active user, and of the product and user asked for. */
  predicate Chosen(s: System, id: WatchId, product: Option<ProductId>, user: Option<O.UserId>) {
    && id in s.watches && s.watches[id].enabled && O.UserActive(s.out.dir, s.watches[id].user)
    && (product.None? || s.watches[id].product == product.value) && (user.None? || s.watches[id].user == user.value)
  }

  /** Every chosen rule has its turn, once, and no other. */
  ghost predicate EachOnce(turns: seq<Turn>, s: System, product: Option<ProductId>, user: Option<O.UserId>) {
    && (forall i, j :: 0 <= i < j < |turns| ==> turns[i].id != turns[j].id)
    && (forall id :: Chosen(s, id, product, user) <==> exists i :: 0 <= i < |turns| && turns[i].id == id)
  }

  /** A whole round over the chosen rules, or none at all for a stale snapshot. */
  ghost predicate Evaluates(topic: Topic, s: System, s': System, turns: seq<Turn>, via: Option<Poll>, snapshot: string, stale: bool,
                            product: Option<ProductId>, user: Option<O.UserId>) {
    if stale then s' == s && turns == []
    else Round(topic, turns, via, snapshot, s, s') && EachOnce(turns, s, product, user)
  }

  /** A round against the current snapshot, if the source is healthy and has one. */
  ghost predicate Reevaluates(topic: Topic, s: System, s': System, turns: seq<Turn>, product: Option<ProductId>, user: Option<O.UserId>) {
    if s.source.lastSnapshot.Some? && !s.source.stale && s.source.status == Healthy
    then Evaluates(topic, s, s', turns, None, s.source.lastSnapshot.value, false, product, user)
    else s' == s
  }

  /** An edited rule. A new target, unlike anything else, makes it wait anew. */
  function Reworked(w: Watch, target: Option<int>, enabled: Option<bool>): Watch {
    var moved := target.Some? && target.value != w.target;
    Watch(w.user, w.product, w.name, if moved then target.value else w.target, w.currency,
          if enabled.Some? then enabled.value else w.enabled, if moved then Waiting else w.state, if moved then 0 else w.attempt)
  }

  lemma PatchMeans(w: Watch, target: Option<int>, enabled: Option<bool>)
    ensures Patched(w, target, enabled) == Reworked(w, target, enabled)
  {
  }

  // ---------------------------------------------------------------------------
  // A whole poll

  datatype Fetched = FetchFailed(error: string) | Unchanged(id: string) | Fresh(snapshot: Snapshot)

  /** The poll went wrong while it held the source: that is noted, and nothing else changes. */
  ghost predicate Spoilt(s: System, s': System, poll: Poll) {
    && s' == s.(now := s'.now, source := s'.source)
    && s'.source.lastError.Some? && Closed(s, s', poll, Broken, poll.row.stale, s'.source.lastError)
    && s'.source.lastSuccessAt == s.source.lastSuccessAt && s'.source.lastSnapshot == s.source.lastSnapshot
    && s'.source.lastPublished == s.source.lastPublished
  }

  /** The poll succeeded: all active users' enabled rules have been evaluated against the snapshot, unless that is stale,
      and then the source says so. */
  ghost predicate Concluded(topic: Topic, s: System, s': System, poll: Poll, turns: seq<Turn>, snapshot: string, stale: bool, published: Option<string>) {
    && (exists end :: Evaluates(topic, s, end, turns, Some(poll), snapshot, stale, None, None)
          && s' == end.(now := s'.now, source := s'.source) && end.source == s.source && end.tables == s.tables && end.loaded == s.loaded)
    && Closed(s, s', poll, if stale then Stale else Healthy, stale, None)
    && s'.source.lastSuccessAt.Some? && s.now <= s'.source.lastSuccessAt.value <= s'.now && s'.source.lastSnapshot == Some(snapshot)
    && s'.source.lastPublished == (if published.Some? then published else s.source.lastPublished)
  }

  /** What is left of a poll, from the state in which its fetch was answered. Without the lease: nothing. A failed
      fetch, or a load that does not commit, spoils it. An unchanged snapshot, or a loaded one, is evaluated. */
  ghost predicate Polled(topic: Topic, s: System, s': System, poll: Poll, fetched: Fetched, turns: seq<Turn>) {
    if s.source.leaseToken != Some(poll.token) then s' == s.(now := s'.now)
    else
      match fetched
      case FetchFailed(error) => Spoilt(s, s', poll) && s'.source.lastError == Some(if |error| <= 1000 then error else error[..1000])
      case Unchanged(id) => Concluded(topic, s, s', poll, turns, id, poll.row.stale, None)
      case Fresh(snapshot) =>
        match Load(s.tables, snapshot.products)
        case None => Spoilt(s, s', poll)
        case Some(tables) =>
          exists at :: s.now <= at
            && Concluded(topic, s.(now := at, tables := tables, loaded := Some(snapshot)), s', poll, turns, snapshot.id, snapshot.stale, Some(snapshot.publishedAt))
  }
}
