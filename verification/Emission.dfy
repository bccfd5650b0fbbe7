/** emitNotification as its callers see it: validation, the idempotency key, and what a retry does
    (apps/server/src/notification-service.ts). */
module Emission {
  import opened Wrappers
  import opened Incidents
  import opened StableJson
  import opened Outbox
  import opened OutboxRuns
  import SensitiveFields

  const MAX_DATA_BYTES: nat := 16 * 1024
  const CLOCK_SKEW_MS: int := 5 * 60_000

  datatype EmitError =
    | UnknownType | DataTooLarge | SensitiveField | BrokenSchema | SchemaMismatch | BadPriority
    | BadTitle | BadBody | NoDedupeKey | InFuture | FenceLost | KeyReused

  datatype SchemaVerdict = Fits | Mismatch | Broken

  /** One call. `eventType` is what the project and event keys name; title and body are already
      rendered and trimmed; `schema` is the validator's answer; `fence` that of the delivery fence. */
  datatype Request = Request(
    eventType: Option<TypeId>,
    data: Json,
    priority: Option<int>,
    title: string,
    body: string,
    dedupeKey: Option<DedupeKey>,
    idempotencyKey: Option<string>,
    occurredAt: Option<int>,
    target: Option<UserId>,
    schema: SchemaVerdict,
    fence: bool)

  datatype Receipt = Receipt(event: EventId, duplicate: bool, deliveries: nat)

  // ---------------------------------------------------------------------------
  // Fingerprints

  function Utf8Length(s: string): nat {
    if s == "" then 0
    else
      var c := s[0] as int;
      (if c < 0x80 then 1 else if c < 0x800 then 2 else if c < 0x1_0000 then 3 else 4) + Utf8Length(s[1..])
  }

  function Digits(n: nat): (text: string)
    ensures text != "" && forall i :: 0 <= i < |text| ==> '0' <= text[i] <= '9'
  {
    var last := ('0' as int + n % 10) as char;
    if n < 10 then [last] else Digits(n / 10) + [last]
  }

  function Numeral(n: int): (text: string)
    ensures Proper(Num(text))
  {
    if n < 0 then ['-'] + Digits(-n) else Digits(n)
  }

  function LifecycleName(l: Lifecycle): string {
    match l case Plain => "event" case Opened => "opened" case Recovered => "recovered"
  }

  function NumberOrNull(n: Option<int>): Json {
    match n case None => Null case Some(v) => Num(Numeral(v))
  }

  /** The parts of a call that decide whether it repeats an earlier one. */
  datatype Content = Content(
    eventType: TypeId, priority: int, title: string, body: string, data: Json,
    dedupeKey: Option<DedupeKey>, lifecycle: Lifecycle, occurredAt: Option<int>, target: Option<UserId>)

  function ContentValues(c: Content): Fields {
    Field("eventTypeId", Num(Numeral(c.eventType)), Field("priority", Num(Numeral(c.priority)), ContentTexts(c)))
  }

  function ContentTexts(c: Content): Fields {
    Field("title", Str(c.title), Field("body", Str(c.body), Field("data", c.data, ContentScope(c))))
  }

  function ContentScope(c: Content): Fields {
    Field("dedupeKey", NumberOrNull(c.dedupeKey), Field("lifecycle", Str(LifecycleName(c.lifecycle)), ContentTimes(c)))
  }

  function ContentTimes(c: Content): Fields {
    Field("occurredAt", NumberOrNull(c.occurredAt), Field("targetUserId", NumberOrNull(c.target), End))
  }

  /** The hash is taken to be injective, so the fingerprint is the text it is computed from. */
  function Fingerprint(c: Content): string {
    StableStringify(Obj(ContentValues(c)))
  }

  /** The same call, up to the order of the keys inside `data`. */
  predicate SameContent(a: Content, b: Content) {
    && a.(data := Null) == b.(data := Null) && Same(a.data, b.data)
  }

  lemma {:induction false} DigitsSeparate(a: nat, b: nat)
    requires Digits(a) == Digits(b)
    ensures a == b
  {
    var x, y := Digits(a), Digits(b);
    assert x[|x| - 1] == ('0' as int + a % 10) as char && y[|y| - 1] == ('0' as int + b % 10) as char;
    assert a % 10 == b % 10;
    if a >= 10 && b >= 10 {
      assert x[..|x| - 1] == Digits(a / 10) && y[..|y| - 1] == Digits(b / 10);
      DigitsSeparate(a / 10, b / 10);
    } else {
      assert a >= 10 ==> |x| >= 2;
      assert b >= 10 ==> |y| >= 2;
    }
  }

  lemma NumeralsSeparate(a: int, b: int)
    requires Numeral(a) == Numeral(b)
    ensures a == b
  {
    assert Numeral(a)[0] == '-' <==> a < 0;
    assert Numeral(b)[0] == '-' <==> b < 0;
    if a < 0 && b < 0 {
      assert Numeral(a)[1..] == Digits(-a) && Numeral(b)[1..] == Digits(-b);
      DigitsSeparate(-a, -b);
    } else if a >= 0 && b >= 0 {
      DigitsSeparate(a, b);
    }
  }

  lemma NumbersSeparate(a: Option<int>, b: Option<int>)
    ensures NumberOrNull(a) == NumberOrNull(b) <==> a == b
    ensures Proper(NumberOrNull(a))
  {
    if a.Some? && b.Some? && NumberOrNull(a) == NumberOrNull(b) { NumeralsSeparate(a.value, b.value); }
  }

  /** Objects with the same keys in the same places are the same exactly when their values are. */
  predicate Pairwise(a: Fields, b: Fields) {
    match a case End => b.End? case Field(k, v, rest) => b.Field? && b.key == k && Same(v, b.value) && Pairwise(rest, b.rest)
  }

  predicate SameShape(a: Fields, b: Fields) {
    match a case End => b.End? case Field(k, _, rest) => b.Field? && b.key == k && SameShape(rest, b.rest)
  }

  lemma {:induction false} ShapeKeys(a: Fields, b: Fields)
    requires SameShape(a, b)
    ensures Keys(a) == Keys(b)
  {
    if a.Field? { ShapeKeys(a.rest, b.rest); }
  }

  lemma {:induction false} SameFieldsPrepend(a: Fields, b: Fields, k: string, v: Json)
    requires k !in Keys(a)
    ensures SameFields(a, Field(k, v, b)) <==> SameFields(a, b)
  {
    if a.Field? { SameFieldsPrepend(a.rest, b, k, v); }
  }

  lemma {:induction false} PairwiseDecides(a: Fields, b: Fields)
    requires SameShape(a, b) && ProperFields(a) && ProperFields(b)
    ensures SameFields(a, b) <==> Pairwise(a, b)
  {
    if a.Field? {
      SameFieldsPrepend(a.rest, b.rest, b.key, b.value);
      PairwiseDecides(a.rest, b.rest);
    }
  }

  lemma TimesDecide(a: Content, b: Content)
    ensures Keys(ContentTimes(a)) == {"occurredAt", "targetUserId"} && ProperFields(ContentTimes(a))
    ensures SameShape(ContentTimes(a), ContentTimes(b))
    ensures Pairwise(ContentTimes(a), ContentTimes(b)) <==> a.occurredAt == b.occurredAt && a.target == b.target
  {
    NumbersSeparate(a.occurredAt, b.occurredAt);
    NumbersSeparate(a.target, b.target);
    var last := ContentTimes(a).rest;
    assert Keys(last) == {"targetUserId"} && ProperFields(last);
    assert Pairwise(last, ContentTimes(b).rest) <==> a.target == b.target;
  }

  lemma ScopeDecides(a: Content, b: Content)
    ensures Keys(ContentScope(a)) == {"dedupeKey", "lifecycle", "occurredAt", "targetUserId"} && ProperFields(ContentScope(a))
    ensures SameShape(ContentScope(a), ContentScope(b))
    ensures Pairwise(ContentScope(a), ContentScope(b)) <==>
      && a.dedupeKey == b.dedupeKey && a.lifecycle == b.lifecycle && a.occurredAt == b.occurredAt && a.target == b.target
  {
    TimesDecide(a, b);
    NumbersSeparate(a.dedupeKey, b.dedupeKey);
    assert "lifecycle"[0] != "dedupeKey"[0];
    var last, other := ContentScope(a).rest, ContentScope(b).rest;
    assert Keys(last) == {"lifecycle", "occurredAt", "targetUserId"} && ProperFields(last) && SameShape(last, other);
    assert Pairwise(last, other) <==> a.lifecycle == b.lifecycle && Pairwise(ContentTimes(a), ContentTimes(b));
  }

  lemma TextsDecide(a: Content, b: Content)
    requires Proper(a.data)
    ensures Keys(ContentTexts(a)) == {"title", "body", "data", "dedupeKey", "lifecycle", "occurredAt", "targetUserId"}
    ensures ProperFields(ContentTexts(a)) && SameShape(ContentTexts(a), ContentTexts(b))
    ensures Pairwise(ContentTexts(a), ContentTexts(b)) <==>
      && a.title == b.title && a.body == b.body && Same(a.data, b.data)
      && a.dedupeKey == b.dedupeKey && a.lifecycle == b.lifecycle && a.occurredAt == b.occurredAt && a.target == b.target
  {
    ScopeDecides(a, b);
    assert "body"[0] != "data"[0];
    var two, two' := ContentTexts(a).rest, ContentTexts(b).rest;
    var one, one' := two.rest, two'.rest;
    assert Keys(one) == {"data", "dedupeKey", "lifecycle", "occurredAt", "targetUserId"} && ProperFields(one) && SameShape(one, one');
    assert Pairwise(one, one') <==> Same(a.data, b.data) && Pairwise(ContentScope(a), ContentScope(b));
    assert Keys(two) == {"body", "data", "dedupeKey", "lifecycle", "occurredAt", "targetUserId"} && ProperFields(two) && SameShape(two, two');
    assert Pairwise(two, two') <==> a.body == b.body && Pairwise(one, one');
  }

  lemma NumeralsDecide(a: int, b: int)
    ensures Same(Num(Numeral(a)), Num(Numeral(b))) <==> a == b
  {
    if Numeral(a) == Numeral(b) { NumeralsSeparate(a, b); }
  }

  lemma ValuesDecide(a: Content, b: Content)
    requires Proper(a.data)
    ensures ProperFields(ContentValues(a)) && SameShape(ContentValues(a), ContentValues(b))
    ensures Pairwise(ContentValues(a), ContentValues(b)) <==> SameContent(a, b)
  {
    TextsDecide(a, b);
    NumeralsDecide(a.priority, b.priority);
    NumeralsDecide(a.eventType, b.eventType);
    var one, one' := ContentValues(a).rest, ContentValues(b).rest;
    assert one == Field("priority", Num(Numeral(a.priority)), ContentTexts(a));
    assert one' == Field("priority", Num(Numeral(b.priority)), ContentTexts(b));
    assert Keys(one) == {"priority", "title", "body", "data", "dedupeKey", "lifecycle", "occurredAt", "targetUserId"};
    assert ProperFields(one) && SameShape(one, one');
    assert Pairwise(one, one') <==> a.priority == b.priority && Pairwise(ContentTexts(a), ContentTexts(b));
  }

  /** Fingerprints agree exactly on the same content: key order in the data does not matter, everything
      else does. */
  lemma FingerprintDecides(a: Content, b: Content)
    requires Proper(a.data) && Proper(b.data)
    ensures Fingerprint(a) == Fingerprint(b) <==> SameContent(a, b)
  {
    ValuesDecide(a, b);
    ValuesDecide(b, a);
    StableStringifyDecides(Obj(ContentValues(a)), Obj(ContentValues(b)));
    ShapeKeys(ContentValues(a), ContentValues(b));
    PairwiseDecides(ContentValues(a), ContentValues(b));
  }

  // ---------------------------------------------------------------------------
  // The call

  function Utf16Length(s: string): nat {
    if s == "" then 0 else (if s[0] as int < 0x1_0000 then 1 else 2) + Utf16Length(s[1..])
  }

  predicate KnownType(dir: Directory, eventType: Option<TypeId>) {
    && eventType.Some? && eventType.value in dir.types && dir.types[eventType.value].enabled
    && ProjectEnabled(dir, dir.types[eventType.value].project)
  }

  function PriorityOf(t: EventType, req: Request): int {
    match req.priority case Some(p) => p case None => t.defaultPriority
  }

  /** The checks before the transaction, in the order the source makes them. */
  function Objection(t: EventType, req: Request, clock: int): Option<EmitError> {
    if Utf8Length(StableStringify(req.data)) > MAX_DATA_BYTES then Some(DataTooLarge)
    else if SensitiveFields.Find(req.data).Some? then Some(SensitiveField)
    else if req.schema == Broken then Some(BrokenSchema)
    else if req.schema == Mismatch then Some(SchemaMismatch)
    else if PriorityOf(t, req) < 1 || PriorityOf(t, req) > 5 then Some(BadPriority)
    else if req.title == "" || Utf16Length(req.title) > 200 then Some(BadTitle)
    else if req.body == "" || Utf8Length(req.body) > 4096 then Some(BadBody)
    else if t.lifecycle != Plain && req.dedupeKey.None? then Some(NoDedupeKey)
    else if req.occurredAt.Some? && req.occurredAt.value > clock + CLOCK_SKEW_MS then Some(InFuture)
    else None
  }

  function Prepare(dir: Directory, req: Request, clock: int): Result<Content, EmitError> {
    if !KnownType(dir, req.eventType) then Err(UnknownType)
    else
      var t := dir.types[req.eventType.value];
      match Objection(t, req, clock)
      case Some(e) => Err(e)
      case None =>
        Ok(Content(req.eventType.value, PriorityOf(t, req), req.title, req.body, req.data, req.dedupeKey, t.lifecycle,
                   req.occurredAt, req.target))
  }

  function EventOf(dir: Directory, req: Request, c: Content, now: int): Event
    requires c.eventType in dir.types
  {
    Event(dir.types[c.eventType].project, c.eventType, c.lifecycle, c.dedupeKey,
          match c.occurredAt case Some(at) => at case None => now,
          now, c.priority, c.title, c.body, StableStringify(c.data), req.idempotencyKey, Some(Fingerprint(c)))
  }

  /** The stored event cannot be a repeat of this content. Events stored before fingerprints existed are
      compared field by field. */
  predicate Conflicts(existing: Event, c: Content) {
    if existing.fingerprint.Some? then existing.fingerprint.value != Fingerprint(c)
    else
      || existing.eventType != c.eventType || existing.priority != c.priority || existing.title != c.title
      || existing.body != c.body || existing.data != StableStringify(c.data)
      || existing.key != c.dedupeKey || existing.lifecycle != c.lifecycle
      || (c.occurredAt.Some? && existing.occurredAt != c.occurredAt.value)
  }

  /** The answer to checked content, inside the transaction. */
  ghost function Decide(s: State, id: EventId, req: Request, c: Content, now: int): (State, Result<Receipt, EmitError>)
    requires c.eventType in s.dir.types
  {
    var event := EventOf(s.dir, req, c, now);
    match FindByKey(s.events, event.project, req.idempotencyKey)
    case Some(e) => if Conflicts(s.events[e], c) then (s, Err(KeyReused)) else (s, Ok(Receipt(e, true, 0)))
    case None =>
      var accepted := UpdateIncident(s.incidents, id, event).1;
      (Emit(s, id, event, req.target, now),
       Ok(Receipt(id, false, if accepted then |FanOut(s.dir, id, event, req.target)| else 0)))
  }

  /** The state and the answer after one call; `clock` is read by the checks, `now` inside the transaction. */
  ghost function EmitRequest(s: State, id: EventId, req: Request, clock: int, now: int): (State, Result<Receipt, EmitError>) {
    match Prepare(s.dir, req, clock)
    case Err(e) => (s, Err(e))
    case Ok(c) => if !req.fence then (s, Err(FenceLost)) else Decide(s, id, req, c, now)
  }

  lemma DecisionIsStep(s: State, id: EventId, req: Request, c: Content, now: int)
    requires id !in s.events && s.now <= now
    requires c.eventType in s.dir.types && (c.lifecycle != Plain ==> c.dedupeKey.Some?)
    ensures var (s', r) := Decide(s, id, req, c, now);
      (s' == s && (r.Ok? ==> r.value.duplicate)) || (Next(s, s') && r.Ok? && !r.value.duplicate && r.value.event == id)
  {
    var event := EventOf(s.dir, req, c, now);
    if FindByKey(s.events, event.project, req.idempotencyKey).None? {
      EmitIsStep(s, id, event, req.target, now);
    }
  }

  /** Every call either changes nothing - an error or a repeat - or is one action of the outbox machine. */
  lemma CallIsStep(s: State, id: EventId, req: Request, clock: int, now: int)
    requires id !in s.events && s.now <= now
    ensures var (s', r) := EmitRequest(s, id, req, clock, now);
      (s' == s && (r.Ok? ==> r.value.duplicate)) || (Next(s, s') && r.Ok? && !r.value.duplicate && r.value.event == id)
  {
    if Prepare(s.dir, req, clock).Ok? {
      DecisionIsStep(s, id, req, Prepare(s.dir, req, clock).value, now);
    }
  }

  // ---------------------------------------------------------------------------
  // Idempotency

  lemma RepeatIsRecognised(s: State, e: EventId, stored: Content, id: EventId, req: Request, c: Content, now: int)
    requires KeysUnique(s.events) && req.idempotencyKey.Some? && c.eventType in s.dir.types
    requires RecordedUnder(s.events, s.dir.types[c.eventType].project, req.idempotencyKey.value, e)
    requires s.events[e].fingerprint == Some(Fingerprint(stored)) && Proper(stored.data) && Proper(c.data)
    ensures Decide(s, id, req, c, now) == (s, if SameContent(c, stored) then Ok(Receipt(e, true, 0)) else Err(KeyReused))
  {
    FingerprintDecides(c, stored);
    assert FindByKey(s.events, s.dir.types[c.eventType].project, req.idempotencyKey) == Some(e);
  }

  /** Once a key has been used, a call with it never changes anything: it is recognised as a repeat exactly
      when its content is that of the stored event, and refused otherwise. */
  lemma RetryChangesNothing(s: State, e: EventId, stored: Content, id: EventId, req: Request, clock: int, now: int)
    requires KeysUnique(s.events) && req.idempotencyKey.Some? && KnownType(s.dir, req.eventType)
    requires RecordedUnder(s.events, s.dir.types[req.eventType.value].project, req.idempotencyKey.value, e)
    requires s.events[e].fingerprint == Some(Fingerprint(stored)) && Proper(stored.data) && Proper(req.data)
    ensures var (s', r) := EmitRequest(s, id, req, clock, now);
      && s' == s
      && (Prepare(s.dir, req, clock).Ok? && req.fence ==>
            r == if SameContent(Prepare(s.dir, req, clock).value, stored) then Ok(Receipt(e, true, 0)) else Err(KeyReused))
  {
    if Prepare(s.dir, req, clock).Ok? {
      RepeatIsRecognised(s, e, stored, id, req, Prepare(s.dir, req, clock).value, now);
    }
  }

  /** The event was stored with this content, under this key of the project. */
  ghost predicate StoredAs(events: map<EventId, Event>, project: ProjectId, key: string, e: EventId, content: Content) {
    && RecordedUnder(events, project, key, e) && events[e].fingerprint == Some(Fingerprint(content)) && Proper(content.data)
  }

  lemma DecisionIsRecorded(s: State, id: EventId, req: Request, c: Content, now: int)
    requires req.idempotencyKey.Some? && Proper(c.data) && c.eventType in s.dir.types
    requires Decide(s, id, req, c, now).1.Ok? && !Decide(s, id, req, c, now).1.value.duplicate
    ensures StoredAs(Decide(s, id, req, c, now).0.events, s.dir.types[c.eventType].project, req.idempotencyKey.value, id, c)
  {
  }

  /** A call that is accepted leaves its event behind under its key. */
  lemma AcceptedCallIsRecorded(s: State, id: EventId, req: Request, clock: int, now: int)
    requires req.idempotencyKey.Some? && Proper(req.data)
    requires var r := EmitRequest(s, id, req, clock, now).1; r.Ok? && !r.value.duplicate
    ensures Prepare(s.dir, req, clock).Ok? && req.eventType.Some? && req.eventType.value in s.dir.types
    ensures StoredAs(EmitRequest(s, id, req, clock, now).0.events, s.dir.types[req.eventType.value].project,
                     req.idempotencyKey.value, id, Prepare(s.dir, req, clock).value)
  {
    var prepared := Prepare(s.dir, req, clock);
    DecisionIsRecorded(s, id, req, prepared.value, now);
  }

  /** Once an event is stored under a key, every call with that key, at any later point of the run, is a
      repeat or an error that changes nothing; it is a repeat exactly when its content is the stored one. */
  lemma RetriesAreIdempotent(run: seq<State>, i: nat, j: nat, project: ProjectId, key: string, e: EventId, stored: Content,
                             id: EventId, retry: Request, clock: int, now: int)
    requires IsRun(run) && i <= j < |run| && StoredAs(run[i].events, project, key, e, stored)
    requires retry.idempotencyKey == Some(key) && Proper(retry.data) && KnownType(run[j].dir, retry.eventType)
    requires run[j].dir.types[retry.eventType.value].project == project
    ensures var (s', r) := EmitRequest(run[j], id, retry, clock, now);
      && s' == run[j]
      && (Prepare(run[j].dir, retry, clock).Ok? && retry.fence ==>
            r == if SameContent(Prepare(run[j].dir, retry, clock).value, stored) then Ok(Receipt(e, true, 0)) else Err(KeyReused))
  {
    EventsPersist(run, i, j, e);
    RunKeepsKeysUnique(run, j);
    RetryChangesNothing(run[j], e, stored, id, retry, clock, now);
  }
}
