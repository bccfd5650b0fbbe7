/** emitNotification over the notification tables (apps/server/src/notification-service.ts). */
module NotificationApi {
  import opened Wrappers
  import opened Incidents
  import opened Outbox
  import opened OutboxRuns
  import opened Emission
  import opened NotificationService

  /** SELECT .. WHERE project_id=? AND idempotency_key=? */
  method FindExisting(events: map<EventId, Event>, project: ProjectId, key: Option<string>) returns (found: Option<EventId>)
    requires KeysUnique(events)
    ensures found == FindByKey(events, project, key)
  {
    if key.None? {
      return None;
    }
    var todo := events.Keys;
    while todo != {}
      invariant todo <= events.Keys
      invariant forall e :: e in events && e !in todo ==> !RecordedUnder(events, project, key.value, e)
      decreases todo
    {
      var e :| e in todo;
      if RecordedUnder(events, project, key.value, e) {
        return Some(e);
      }
      todo := todo - {e};
    }
    return None;
  }

  lemma KeysAreUnique(s: State)
    requires Reachable(s)
    ensures KeysUnique(s.events)
  {
    var run :| EndsRun(run, s);
    RunKeepsKeysUnique(run, |run| - 1);
  }

  /** The transaction, for content that passed the checks. */
  method StoreOnce(store: NotificationStore, id: EventId, req: Request, content: Content, at: int) returns (r: Result<Receipt, EmitError>)
    requires store.Valid() && id !in store.events && store.now <= at
    requires content.eventType in store.dir.types && (content.lifecycle != Plain ==> content.dedupeKey.Some?)
    modifies store
    ensures store.Valid() && (store.Tables(), r) == Decide(old(store.Tables()), id, req, content, at)
  {
    var event := EventOf(store.dir, req, content, at);
    KeysAreUnique(store.Tables());
    var existing := FindExisting(store.events, event.project, req.idempotencyKey);
    if existing.Some? {
      if Conflicts(store.events[existing.value], content) {
        return Err(KeyReused);
      }
      return Ok(Receipt(existing.value, true, 0));
    }
    store.RowsHaveEvents();
    TakeEmit(store.Tables(), id, event, req.target, at);
    var deliveries := store.Record(id, event, req.target, at);
    return Ok(Receipt(id, false, deliveries));
  }

  /** One call of emitNotification: the new tables and the answer are those of the specification. */
  method EmitNotification(store: NotificationStore, id: EventId, req: Request, clock: int, at: int) returns (r: Result<Receipt, EmitError>)
    requires store.Valid() && id !in store.events && store.now <= at
    modifies store
    ensures store.Valid() && (store.Tables(), r) == EmitRequest(old(store.Tables()), id, req, clock, at)
  {
    var prepared := Prepare(store.dir, req, clock);
    if prepared.Err? {
      return Err(prepared.error);
    }
    if !req.fence {
      return Err(FenceLost);
    }
    r := StoreOnce(store, id, req, prepared.value, at);
  }
}
