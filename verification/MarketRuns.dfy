/** What the market poller and the procurement rules keep over every run. */
module MarketRuns {
  import opened Wrappers
  import opened MarketOffers
  import opened MarketSnapshot
  import opened MarketSubscription
  import opened Market
  import Incidents
  import O = Outbox
  import Steps = OutboxSteps
  import Runs = OutboxRuns
  import E = Emission

  // ---------------------------------------------------------------------------
  // The active set

  function LoadedProducts(s: System): seq<Product> {
    match s.loaded case Some(snapshot) => snapshot.products case None => []
  }

  ghost predicate ActiveSetOk(s: System) {
    Shows(s.tables, LoadedProducts(s))
  }

  lemma StepKeepsActiveSet(topic: Topic, s: System, a: Action)
    requires ActiveSetOk(s) && Possible(topic, s, a)
    ensures ActiveSetOk(Apply(topic, s, a))
    ensures a.LoadPoll? || Apply(topic, s, a).tables == s.tables
  {
    if a.LoadPoll? && Load(s.tables, a.snapshot.products).Some? { LoadReplaces(s.tables, a.snapshot.products); }
  }

  /** In every state of every run the active products and offers of the source are exactly those of the last
      snapshot whose load was committed - of none, before the first one. */
  lemma {:induction false} ActiveSetIsLastLoad(run: Run, i: nat)
    requires run.Valid() && i < |run.states|
    ensures Shows(run.states[i].tables, LoadedProducts(run.states[i]))
  {
    if i > 0 {
      ActiveSetIsLastLoad(run, i - 1);
      assert run.StepOk(i - 1);
      StepKeepsActiveSet(run.topic, run.states[i - 1], run.actions[i - 1]);
    }
  }

  // ---------------------------------------------------------------------------
  // The lease

  ghost predicate LeaseOk(s: System) {
    && (s.source.leaseToken.Some? ==> s.source.leaseToken.value in s.tokens)
    && (forall p :: p in s.polls ==> p.token in s.tokens)
    && (forall p, q :: p in s.polls && q in s.polls && p.token == q.token ==> p == q)
  }

  lemma StepKeepsLease(topic: Topic, s: System, a: Action)
    requires LeaseOk(s) && Possible(topic, s, a)
    ensures var s' := Apply(topic, s, a);
      && LeaseOk(s') && s.polls <= s'.polls && s.tokens <= s'.tokens
      && (forall p :: p in s.polls && !HoldsLease(s, p) ==> !HoldsLease(s', p))
  {
  }

  lemma {:induction false} RunKeepsLease(run: Run, i: nat)
    requires run.Valid() && i < |run.states|
    ensures LeaseOk(run.states[i])
  {
    if i > 0 {
      RunKeepsLease(run, i - 1);
      assert run.StepOk(i - 1);
      StepKeepsLease(run.topic, run.states[i - 1], run.actions[i - 1]);
    }
  }

  /** Only one worker ever holds the source. */
  lemma OneHolder(run: Run, i: nat, p: Poll, q: Poll)
    requires run.Valid() && i < |run.states| && p in run.states[i].polls && q in run.states[i].polls
    requires HoldsLease(run.states[i], p) && HoldsLease(run.states[i], q)
    ensures p == q
  {
    RunKeepsLease(run, i);
  }

  lemma {:induction false} LostForEver(run: Run, i: nat, j: nat, p: Poll)
    requires run.Valid() && i <= j < |run.states| && p in run.states[i].polls && !HoldsLease(run.states[i], p)
    ensures p in run.states[j].polls && !HoldsLease(run.states[j], p)
    decreases j
  {
    if i < j {
      LostForEver(run, i, j - 1, p);
      RunKeepsLease(run, j - 1);
      assert run.StepOk(j - 1);
      StepKeepsLease(run.topic, run.states[j - 1], run.actions[j - 1]);
    }
  }

  /** The actions of one worker. */
  predicate ActsFor(a: Action, p: Poll) {
    match a
    case LoadPoll(poll, _, _) => poll == p
    case Evaluate(_, via, _, _, _) => via == Some(p)
    case ReleasePoll(poll, _, _) => poll == p
    case _ => false
  }

  lemma FencedStep(topic: Topic, s: System, a: Action, p: Poll)
    requires Possible(topic, s, a) && ActsFor(a, p) && !HoldsLease(s, p)
    ensures Apply(topic, s, a) == s.(now := Apply(topic, s, a).now)
  {
  }

  /** A worker whose lease token has been replaced or given up changes nothing for the rest of the run: no product,
      listing or offer, not the source, no rule, no subscription and no notification. */
  lemma StaleWorkerChangesNothing(run: Run, i: nat, j: nat, p: Poll)
    requires run.Valid() && i <= j < |run.actions| && p in run.states[i].polls && !HoldsLease(run.states[i], p)
    requires ActsFor(run.actions[j], p)
    ensures run.states[j + 1] == run.states[j].(now := run.states[j + 1].now)
  {
    LostForEver(run, i, j, p);
    assert run.StepOk(j);
    FencedStep(run.topic, run.states[j], run.actions[j], p);
  }

  // ---------------------------------------------------------------------------
  // The outbox underneath

  ghost predicate OutboxOk(topic: Topic, s: System) {
    && Steps.Inv(s.out) && O.KeysUnique(s.out.events) && s.out.now <= s.now && ChannelsKnown(s.out.dir)
    && (topic.eventType in s.out.dir.types ==> s.out.dir.types[topic.eventType].lifecycle == Incidents.Plain)
  }

  /** What an evaluation does to the outbox: at most a subscription, then at most an event. */
  ghost predicate OutboxFollows(topic: Topic, out: O.State, out': O.State) {
    && Steps.Inv(out') && O.KeysUnique(out'.events) && out'.dir.types == out.dir.types && ChannelsKnown(out'.dir)
    && (forall e :: e in out.events ==> e in out'.events && out'.events[e] == out.events[e])
  }

  lemma ConfigureIsStep(out: O.State, dir: O.Directory)
    requires out.dir.subs.Keys <= dir.subs.Keys && out.dir.users.Keys <= dir.users.Keys
    ensures O.Next(out, out.(dir := dir))
  {
    var a := O.Configure(dir);
    assert O.Enabled(out, a) && out.(dir := dir) == O.Apply(out, a);
  }

  lemma ConfigureKeepsInv(out: O.State, dir: O.Directory)
    requires Steps.Inv(out) && out.dir.subs.Keys <= dir.subs.Keys && out.dir.users.Keys <= dir.users.Keys
    ensures Steps.Inv(out.(dir := dir))
  {
    ConfigureIsStep(out, dir);
    Runs.StepKeepsInv(out, out.(dir := dir));
  }

  lemma RequestKeepsInv(out: O.State, id: nat, req: E.Request, clock: int, now: int)
    requires Steps.Inv(out) && O.KeysUnique(out.events) && id !in out.events && out.now <= now
    ensures var (out', r) := E.EmitRequest(out, id, req, clock, now);
      && Steps.Inv(out') && O.KeysUnique(out'.events) && (forall e :: e in out.events ==> e in out'.events && out'.events[e] == out.events[e])
      && (out'.events != out.events ==> r.Ok?)
  {
    E.CallIsStep(out, id, req, clock, now);
    var out' := E.EmitRequest(out, id, req, clock, now).0;
    if out' != out {
      Runs.StepKeepsInv(out, out');
      Runs.StepKeepsKeysUnique(out, out');
    }
  }

  lemma RequestKeepsClock(out: O.State, id: nat, req: E.Request, clock: int, now: int)
    ensures var out' := E.EmitRequest(out, id, req, clock, now).0;
      out'.dir == out.dir && (out'.now == out.now || out'.now == now)
  {
  }

  lemma SendGives(topic: Topic, out: O.State, id: WatchId, w: Watch, o: Offer, snapshot: string, d: Draw)
    ensures var after, (out', r) := Send(topic, out, id, w, o, snapshot, d), E.EmitRequest(out, d.event, TargetRequest(topic, id, w, o, snapshot, d), d.clock, d.now);
      && after.out == out' && (r.Ok? ==> after.watch.state == Met || after.watch == w.(attempt := w.attempt + 1))
      && after.watch == w.(state := after.watch.state, attempt := after.watch.attempt)
  {
  }

  lemma SendKeepsOutbox(topic: Topic, out: O.State, id: WatchId, w: Watch, o: Offer, snapshot: string, d: Draw)
    requires Steps.Inv(out) && O.KeysUnique(out.events) && d.event !in out.events && out.now <= d.now
    ensures var after := Send(topic, out, id, w, o, snapshot, d);
      && Steps.Inv(after.out) && O.KeysUnique(after.out.events) && after.out.dir == out.dir && after.out.now <= d.now
      && (forall e :: e in out.events ==> e in after.out.events && after.out.events[e] == out.events[e])
      && (after.out.events != out.events ==> after.watch.state == Met || after.watch == w.(attempt := w.attempt + 1))
  {
    var req := TargetRequest(topic, id, w, o, snapshot, d);
    SendGives(topic, out, id, w, o, snapshot, d);
    RequestKeepsInv(out, d.event, req, d.clock, d.now);
    RequestKeepsClock(out, d.event, req, d.clock, d.now);
  }

  lemma JudgeKeepsOutbox(topic: Topic, s: System, w: Watch, id: WatchId, found: Option<Offer>, snapshot: string, d: Draw)
    requires OutboxOk(topic, s) && d.event !in s.out.events && s.now <= d.now
    requires d.builtin in s.out.dir.subs ==> s.out.dir.subs[d.builtin].user == w.user
    ensures var after := Judge(topic, s.out, id, w, found, snapshot, d);
      && OutboxFollows(topic, s.out, after.out) && after.out.now <= d.now
      && (after.out.events != s.out.events ==>
            found.Some? && w.state != Met && (after.watch.state == Met || after.watch == w.(attempt := w.attempt + 1)))
  {
    if found.Some? && w.state != Met {
      var ensured := EnsureSubscription(s.out.dir, topic, w.user, d.builtin);
      if ensured.Some? {
        EnsureCovers(s.out.dir, topic, w.user, d.builtin);
        EnsureKeepsChannels(s.out.dir, topic, w.user, d.builtin);
        ConfigureKeepsInv(s.out, ensured.value);
        SendKeepsOutbox(topic, s.out.(dir := ensured.value), id, w, found.value, snapshot, d);
      }
    }
  }

  lemma SendKeepsRule(topic: Topic, out: O.State, id: WatchId, w: Watch, o: Offer, snapshot: string, d: Draw)
    ensures var after := Send(topic, out, id, w, o, snapshot, d);
      after.watch == w.(state := after.watch.state, attempt := after.watch.attempt) && after.out.dir == out.dir
  {
    SendGives(topic, out, id, w, o, snapshot, d);
    RequestKeepsClock(out, d.event, TargetRequest(topic, id, w, o, snapshot, d), d.clock, d.now);
  }

  lemma EnsureKeepsUsers(dir: O.Directory, topic: Topic, user: O.UserId, builtin: O.SubId)
    ensures var after := EnsureSubscription(dir, topic, user, builtin); after.Some? ==> after.value.users == dir.users
  {
  }

  /** An evaluation changes nothing of a rule but its state and attempt counter. */
  lemma JudgeKeepsRule(topic: Topic, out: O.State, id: WatchId, w: Watch, found: Option<Offer>, snapshot: string, d: Draw)
    ensures var after := Judge(topic, out, id, w, found, snapshot, d);
      && after.watch == w.(state := after.watch.state, attempt := after.watch.attempt)
      && after.out.dir.users == out.dir.users
  {
    if found.Some? && w.state != Met {
      var ensured := EnsureSubscription(out.dir, topic, w.user, d.builtin);
      EnsureKeepsUsers(out.dir, topic, w.user, d.builtin);
      if ensured.Some? { SendKeepsRule(topic, out.(dir := ensured.value), id, w, found.value, snapshot, d); }
    }
  }

  /** What one turn of evaluateWatches leaves alone. */
  ghost predicate RulesKept(s: System, s': System) {
    && s'.source == s.source && s'.tables == s.tables && s'.loaded == s.loaded && s'.polls == s.polls
    && s.now <= s'.now && s'.out.dir.users == s.out.dir.users
    && s'.watches.Keys == s.watches.Keys
    && (forall id :: id in s.watches ==>
          s'.watches[id].user == s.watches[id].user && s'.watches[id].product == s.watches[id].product
          && s'.watches[id].enabled == s.watches[id].enabled)
  }

  lemma EvaluationKeepsRules(topic: Topic, s: System, id: WatchId, via: Option<Poll>, found: Option<Offer>, snapshot: string, d: Draw)
    requires id in s.watches && s.now <= d.now
    ensures RulesKept(s, Evaluated(topic, s, id, via, found, snapshot, d))
  {
    JudgeKeepsRule(topic, s.out, id, s.watches[id], found, snapshot, d);
  }

  lemma StepKeepsOutbox(topic: Topic, s: System, a: Action)
    requires OutboxOk(topic, s) && Possible(topic, s, a)
    ensures OutboxOk(topic, Apply(topic, s, a))
  {
    match a {
      case Evaluate(id, via, found, snapshot, d) => JudgeKeepsOutbox(topic, s, s.watches[id], id, found, snapshot, d);
      case Elsewhere(out) =>
        Runs.StepKeepsInv(s.out, out);
        Runs.StepKeepsKeysUnique(s.out, out);
      case _ =>
    }
  }

  lemma OutboxAtNext(run: Run, i: nat)
    requires run.Valid() && i < |run.actions| && OutboxOk(run.topic, run.states[i])
    ensures OutboxOk(run.topic, run.states[i + 1])
  {
    assert run.StepOk(i);
    StepKeepsOutbox(run.topic, run.states[i], run.actions[i]);
  }

  lemma {:induction false} RunKeepsOutbox(run: Run, i: nat)
    requires run.Valid() && i < |run.states|
    ensures OutboxOk(run.topic, run.states[i])
  {
    if i > 0 {
      RunKeepsOutbox(run, i - 1);
      OutboxAtNext(run, i - 1);
    }
  }

  // ---------------------------------------------------------------------------
  // Paths

  ghost predicate Joins(run: Run, topic: Topic, s: System, s': System) {
    && run.topic == topic && |run.states| == |run.actions| + 1 && run.states[0] == s && run.states[|run.actions|] == s'
    && forall i {:trigger run.StepOk(i)} :: 0 <= i < |run.actions| ==> run.StepOk(i)
  }

  /** Some actions, one after the other, lead from `s` to `s'`. */
  ghost predicate Leads(topic: Topic, s: System, s': System) {
    exists run :: Joins(run, topic, s, s')
  }

  ghost predicate Reachable(topic: Topic, s: System) {
    exists start :: Initial(topic, start) && Leads(topic, start, s)
  }

  lemma LeadsNowhere(topic: Topic, s: System)
    ensures Leads(topic, s, s)
  {
    assert Joins(Run(topic, [s], []), topic, s, s);
  }

  lemma StepCarries(run: Run, longer: Run, i: nat)
    requires |run.states| == |run.actions| + 1 && |longer.states| == |longer.actions| + 1 && run.topic == longer.topic
    requires i < |run.actions| && i < |longer.actions| && run.StepOk(i)
    requires longer.states[i] == run.states[i] && longer.actions[i] == run.actions[i] && longer.states[i + 1] == run.states[i + 1]
    ensures longer.StepOk(i)
  {
  }

  lemma StepAppended(longer: Run, i: nat, s: System, a: Action)
    requires |longer.states| == |longer.actions| + 1 && i < |longer.actions| && Possible(longer.topic, s, a)
    requires longer.states[i] == s && longer.actions[i] == a && longer.states[i + 1] == Apply(longer.topic, s, a)
    ensures longer.StepOk(i)
  {
  }

  lemma LeadsOn(topic: Topic, s: System, s': System, a: Action)
    requires Leads(topic, s, s') && Possible(topic, s', a)
    ensures Leads(topic, s, Apply(topic, s', a))
  {
    var run :| Joins(run, topic, s, s');
    var longer := Run(topic, run.states + [Apply(topic, s', a)], run.actions + [a]);
    forall i | 0 <= i < |longer.actions|
      ensures longer.StepOk(i)
    {
      if i < |run.actions| { StepCarries(run, longer, i); } else { StepAppended(longer, i, s', a); }
    }
    assert Joins(longer, topic, s, Apply(topic, s', a));
  }

  lemma {:induction false} LeadsAlong(topic: Topic, start: System, s: System, run: Run, i: nat)
    requires Leads(topic, start, s) && run.topic == topic && |run.states| == |run.actions| + 1 && run.states[0] == s && i <= |run.actions|
    requires forall k {:trigger run.StepOk(k)} :: 0 <= k < |run.actions| ==> run.StepOk(k)
    ensures Leads(topic, start, run.states[i])
  {
    if i > 0 {
      LeadsAlong(topic, start, s, run, i - 1);
      assert run.StepOk(i - 1);
      LeadsOn(topic, start, run.states[i - 1], run.actions[i - 1]);
    }
  }

  lemma LeadsTogether(topic: Topic, start: System, s: System, s': System)
    requires Leads(topic, start, s) && Leads(topic, s, s')
    ensures Leads(topic, start, s')
  {
    var run :| Joins(run, topic, s, s');
    LeadsAlong(topic, start, s, run, |run.actions|);
  }

  lemma TakeStep(topic: Topic, s: System, a: Action)
    requires Reachable(topic, s) && Possible(topic, s, a)
    ensures Reachable(topic, Apply(topic, s, a)) && Leads(topic, s, Apply(topic, s, a))
  {
    var start :| Initial(topic, start) && Leads(topic, start, s);
    LeadsOn(topic, start, s, a);
    LeadsNowhere(topic, s);
    LeadsOn(topic, s, s, a);
  }

  /** A reachable state ends some run, so the theorems about runs hold of it. */
  lemma ReachedByRun(topic: Topic, s: System) returns (run: Run)
    requires Reachable(topic, s)
    ensures run.Valid() && run.topic == topic && run.states[|run.actions|] == s
  {
    var start :| Initial(topic, start) && Leads(topic, start, s);
    run :| Joins(run, topic, start, s);
  }

  lemma OneClock(topic: Topic, s: System)
    requires Reachable(topic, s)
    ensures s.out.now <= s.now && (s.source.leaseToken.Some? ==> s.source.leaseToken.value in s.tokens)
    ensures ChannelsKnown(s.out.dir)
    ensures topic.eventType in s.out.dir.types ==> s.out.dir.types[topic.eventType].lifecycle == Incidents.Plain
  {
    var run := ReachedByRun(topic, s);
    RunKeepsOutbox(run, |run.actions|);
    RunKeepsLease(run, |run.actions|);
  }

  /** Ensuring a subscription is an action of the outbox like an administrator's edit. */
  lemma EnsureIsStep(topic: Topic, s: System, user: O.UserId, builtin: O.SubId)
    requires Reachable(topic, s) && EnsureSubscription(s.out.dir, topic, user, builtin).Some?
    requires builtin in s.out.dir.subs ==> s.out.dir.subs[builtin].user == user
    ensures var s' := s.(out := s.out.(dir := EnsureSubscription(s.out.dir, topic, user, builtin).value));
      Reachable(topic, s') && Leads(topic, s, s')
  {
    OneClock(topic, s);
    EnsureCovers(s.out.dir, topic, user, builtin);
    EnsureKeepsChannels(s.out.dir, topic, user, builtin);
    var dir := EnsureSubscription(s.out.dir, topic, user, builtin).value;
    ConfigureIsStep(s.out, dir);
    TakeStep(topic, s, Elsewhere(s.out.(dir := dir)));
  }
}
