/** When a call of emitNotification succeeds, and what a new event looks like, told from the call alone
    (apps/server/src/notification-service.ts). */
module EmissionMeaning {
  import opened Wrappers
  import opened Incidents
  import opened StableJson
  import opened Outbox
  import opened OutboxRuns
  import opened Emission
  import OutboxSteps
  import SensitiveFields

  /** The event type a call names, if both it and its project are switched on. */
  function LiveType(dir: Directory, req: Request): Option<EventType> {
    if req.eventType.None? || req.eventType.value !in dir.types then None
    else
      var t := dir.types[req.eventType.value];
      if t.enabled && t.project in dir.projects && dir.projects[t.project] then Some(t) else None
  }

  /** The requirements on a call, each with the error for it, in the order in which they are looked at. */
  ghost function Requirements(t: EventType, req: Request, clock: int): seq<(EmitError, bool)> {
    var priority := if req.priority.Some? then req.priority.value else t.defaultPriority;
    [(DataTooLarge, Utf8Length(StableStringify(req.data)) <= 16_384),
     (SensitiveField, forall path :: !SensitiveFields.LeadsToSecret(req.data, path)),
     (BrokenSchema, req.schema != Broken),
     (SchemaMismatch, req.schema != Mismatch),
     (BadPriority, 1 <= priority <= 5),
     (BadTitle, 1 <= Utf16Length(req.title) <= 200),
     (BadBody, 1 <= Utf8Length(req.body) <= 4096),
     (NoDedupeKey, t.lifecycle == Plain || req.dedupeKey.Some?),
     (InFuture, req.occurredAt.None? || req.occurredAt.value <= clock + 300_000),
     (FenceLost, req.fence)]
  }

  /** The first requirement that is not met. */
  ghost predicate FailsFirst(checks: seq<(EmitError, bool)>, e: EmitError) {
    exists i :: 0 <= i < |checks| && checks[i] == (e, false) && forall j :: 0 <= j < i ==> checks[j].1
  }

  ghost predicate AllMet(checks: seq<(EmitError, bool)>) {
    forall i :: 0 <= i < |checks| ==> checks[i].1
  }

  /** No earlier event of the project carries the call's idempotency key. */
  ghost predicate KeyUnused(s: State, project: ProjectId, req: Request) {
    req.idempotencyKey.Some? ==> forall e :: e in s.events && s.events[e].project == project ==> s.events[e].idempotencyKey != req.idempotencyKey
  }

  lemma TextLengths(req: Request)
    ensures req.title == "" <==> Utf16Length(req.title) == 0
    ensures req.body == "" <==> Utf8Length(req.body) == 0
  {
  }

  lemma SecretsFound(data: Json)
    requires Proper(data)
    ensures SensitiveFields.Find(data).None? <==> forall path :: !SensitiveFields.LeadsToSecret(data, path)
  {
    if SensitiveFields.Find(data).Some? {
      SensitiveFields.FoundIsSecret(data);
    } else {
      forall path ensures !SensitiveFields.LeadsToSecret(data, path) { SensitiveFields.NothingFoundNothingThere(data, path); }
    }
  }

  ghost function FirstError(checks: seq<(EmitError, bool)>): Option<EmitError>
    requires |checks| == 10
  {
    if !checks[0].1 then Some(checks[0].0) else if !checks[1].1 then Some(checks[1].0) else if !checks[2].1 then Some(checks[2].0)
    else if !checks[3].1 then Some(checks[3].0) else if !checks[4].1 then Some(checks[4].0) else if !checks[5].1 then Some(checks[5].0)
    else if !checks[6].1 then Some(checks[6].0) else if !checks[7].1 then Some(checks[7].0) else if !checks[8].1 then Some(checks[8].0)
    else if !checks[9].1 then Some(checks[9].0) else None
  }

  lemma FirstErrorMeans(checks: seq<(EmitError, bool)>)
    requires |checks| == 10
    ensures match FirstError(checks)
      case Some(e) => FailsFirst(checks, e)
      case None => AllMet(checks)
  {
    var k := FirstUnmet(checks);
    assert FirstError(checks) == if k < 10 then Some(checks[k].0) else None;
  }

  /** The place of the first requirement that is not met. */
  lemma {:induction false} FirstUnmet(checks: seq<(EmitError, bool)>) returns (k: nat)
    ensures k <= |checks| && (forall j :: 0 <= j < k ==> checks[j].1) && (k < |checks| ==> !checks[k].1)
    ensures k < |checks| ==> FailsFirst(checks, checks[k].0)
    ensures k == |checks| ==> AllMet(checks)
  {
    k := 0;
    while k < |checks| && checks[k].1
      invariant k <= |checks| && forall j :: 0 <= j < k ==> checks[j].1
    {
      k := k + 1;
    }
    if k < |checks| { assert checks[k] == (checks[k].0, false); }
  }

  lemma ObjectionIsFirstError(t: EventType, req: Request, clock: int)
    requires Proper(req.data)
    ensures var o := Objection(t, req, clock);
      && o != Some(FenceLost)
      && FirstError(Requirements(t, req, clock)) == if o.Some? then o else if req.fence then None else Some(FenceLost)
  {
    TextLengths(req);
    SecretsFound(req.data);
  }

  /** The checks object exactly to the first requirement not met. */
  lemma ObjectionIsFirst(t: EventType, req: Request, clock: int)
    requires Proper(req.data)
    ensures match Objection(t, req, clock)
      case Some(e) => FailsFirst(Requirements(t, req, clock), e) && e != FenceLost
      case None => (if req.fence then AllMet(Requirements(t, req, clock)) else FailsFirst(Requirements(t, req, clock), FenceLost))
  {
    ObjectionIsFirstError(t, req, clock);
    FirstErrorMeans(Requirements(t, req, clock));
  }

  /** A call for an unknown or switched-off type is refused as such; any other call with an unused idempotency key
      succeeds exactly when every requirement is met, and is refused for the first one that is not. */
  lemma CallSucceedsIff(s: State, id: EventId, req: Request, clock: int, now: int)
    requires Proper(req.data)
    ensures var r, t := EmitRequest(s, id, req, clock, now).1, LiveType(s.dir, req);
      && (t.None? <==> r == Err(UnknownType))
      && (t.Some? && KeyUnused(s, t.value.project, req) ==>
            if AllMet(Requirements(t.value, req, clock)) then r.Ok? && r.value.event == id && !r.value.duplicate
            else r.Err? && FailsFirst(Requirements(t.value, req, clock), r.error))
  {
    var t := LiveType(s.dir, req);
    if t.Some? {
      ObjectionIsFirst(t.value, req, clock);
      if AllMet(Requirements(t.value, req, clock)) {
        assert Requirements(t.value, req, clock)[9].1;
        NoEarlierEvent(s, t.value.project, req);
      }
    }
  }

  lemma NoEarlierEvent(s: State, project: ProjectId, req: Request)
    ensures KeyUnused(s, project, req) <==> FindByKey(s.events, project, req.idempotencyKey).None?
  {
    if req.idempotencyKey.Some? {
      assert forall e ::
          RecordedUnder(s.events, project, req.idempotencyKey.value, e)
          <==> e in s.events && s.events[e].project == project && s.events[e].idempotencyKey == req.idempotencyKey;
    }
  }

  /** The event says what the call says. */
  predicate SaysTheSame(event: Event, t: EventType, req: Request) {
    && Some(event.eventType) == req.eventType && event.title == req.title && event.body == req.body && event.data == StableStringify(req.data)
    && event.priority == (if req.priority.Some? then req.priority.value else t.defaultPriority)
    && event.key == req.dedupeKey && event.lifecycle == t.lifecycle && (req.occurredAt.None? || req.occurredAt.value == event.occurredAt)
  }

  /** A proper call whose key belongs to an event stored before fingerprints existed changes nothing; it is a repeat
      exactly when that event says what the call says, and refused otherwise. */
  lemma OldEventRepeatIff(s: State, e: EventId, id: EventId, req: Request, clock: int, now: int)
    requires Proper(req.data) && KeysUnique(s.events) && LiveType(s.dir, req).Some? && req.idempotencyKey.Some?
    requires var t := LiveType(s.dir, req).value; RecordedUnder(s.events, t.project, req.idempotencyKey.value, e) && AllMet(Requirements(t, req, clock))
    requires s.events[e].fingerprint == None
    ensures EmitRequest(s, id, req, clock, now) ==
      (s, if SaysTheSame(s.events[e], LiveType(s.dir, req).value, req) then Ok(Receipt(e, true, 0)) else Err(KeyReused))
  {
    var t := LiveType(s.dir, req).value;
    ObjectionIsFirst(t, req, clock);
    assert Requirements(t, req, clock)[9].1;
    assert FindByKey(s.events, t.project, req.idempotencyKey) == Some(e);
  }

  /** What a successful call with an unused key stores: one event that says what the call said, dated by the call or
      else by the clock. The answer counts the rows made for it. */
  lemma NewEventIsTheCall(s: State, id: EventId, req: Request, clock: int, now: int)
    requires id !in s.events && OutboxSteps.RowsOk(s)
    requires var r := EmitRequest(s, id, req, clock, now).1; r.Ok? && !r.value.duplicate
    ensures var (s', r) := EmitRequest(s, id, req, clock, now);
      && id in s'.events && s'.events == s.events[id := s'.events[id]] && req.eventType.Some? && req.eventType.value in s.dir.types
      && var e, t := s'.events[id], s.dir.types[req.eventType.value];
      && e.project == t.project && e.eventType == req.eventType.value && e.lifecycle == t.lifecycle
      && e.key == req.dedupeKey && e.idempotencyKey == req.idempotencyKey
      && e.occurredAt == (if req.occurredAt.Some? then req.occurredAt.value else now) && e.createdAt == now
      && e.priority == (if req.priority.Some? then req.priority.value else t.defaultPriority)
      && e.title == req.title && e.body == req.body && e.data == StableStringify(req.data)
      && s' == Emit(s, id, e, req.target, now)
      && r.value.event == id && r.value.deliveries == |set k | k in s'.rows && k.event == id|
  {
    var c := Prepare(s.dir, req, clock).value;
    var event := EventOf(s.dir, req, c, now);
    EmitStores(s, id, event, req.target, now);
    CountedRows(s, id, event, req.target, now);
  }

  lemma CountedRows(s: State, id: EventId, event: Event, target: Option<UserId>, now: int)
    requires id !in s.events && OutboxSteps.RowsOk(s)
    ensures (set k | k in Emit(s, id, event, target, now).rows && k.event == id)
         == if UpdateIncident(s.incidents, id, event).1 then FanOut(s.dir, id, event, target) else {}
  {
    assert forall k :: k in s.rows ==> OutboxSteps.RowOk(s, k);
  }
}
