/** updateAlertState over the alert table and the notification tables (apps/server/src/alerts.ts). */
module AlertService {
  import opened Wrappers
  import opened Outside
  import opened Incidents
  import opened Alerts
  import opened AlertRuns
  import O = Outbox
  import E = Emission
  import NotificationService
  import NotificationApi

  const MESSAGE_LENGTH: nat := 2000

  /** One attempt to announce something: about which alert, the clock readings, and whether its mark could be saved. */
  datatype Notice = Notice(id: AlertId, clock: int, at: int, saved: bool)

  predicate IsFiring(s: System, id: AlertId, source: Source) {
    id in s.alerts && s.alerts[id].source == source && s.alerts[id].status == Firing
  }

  /** A cleared alert of the source whose recovery has not been announced. */
  predicate Untold(s: System, id: AlertId, source: Source) {
    id in s.alerts && s.alerts[id].source == source && s.alerts[id].status == Cleared && s.alerts[id].recoveryNotifiedAt.None?
    && s.alerts[id].resolvedAt.Some?
  }

  /** The call was made, and the alert is marked exactly if it was answered and the mark could be saved. */
  ghost predicate Noticed(s: System, s': System, event: EventId, call: E.Request, n: Notice, marked: Alert) {
    var (out, r) := E.EmitRequest(s.out, event, call, n.clock, n.at);
    && s.now <= n.clock <= n.at && s' == System(n.at, out, if r.Ok? && n.saved then s.alerts[n.id := marked] else s.alerts)
  }

  /** What a failing source leads to, first: an alert opens now unless one is open already. */
  ghost predicate Opens(s: System, s': System, source: Source, severity: string, title: string, message: string, id: AlertId) {
    if exists a :: IsFiring(s, a, source) then s' == s
    else
      && s.now <= s'.now && id in s'.alerts && s' == s.(now := s'.now, alerts := s.alerts[id := s'.alerts[id]])
      && s'.alerts[id] == Alert(source, severity, title, s'.alerts[id].message, Firing, s'.now, None, None, None)
      && s'.alerts[id].message <= message && |s'.alerts[id].message| == (if |message| < 2000 then |message| else 2000)
  }

  /** Then, its opening is announced unless that has been done. */
  ghost predicate TellsOpening(cat: Catalogue, s: System, s': System, source: Source, event: EventId, notice: Option<Notice>) {
    match notice
    case None => s' == s && exists a :: IsFiring(s, a, source) && s.alerts[a].notifiedAt.Some?
    case Some(n) =>
      && IsFiring(s, n.id, source) && s.alerts[n.id].notifiedAt.None?
      && Noticed(s, s', event, OpenedRequest(cat, n.id, s.alerts[n.id]), n, s.alerts[n.id].(notifiedAt := Some(n.at)))
  }

  /** What a source that is not failing leads to, first: its open alert, if there is one, is cleared now. */
  ghost predicate Clears(s: System, s': System, source: Source) {
    && s.now <= s'.now && s'.out == s.out && s'.alerts.Keys == s.alerts.Keys
    && forall a :: a in s.alerts ==>
         s'.alerts[a] == if IsFiring(s, a, source) then s.alerts[a].(status := Cleared, resolvedAt := Some(s'.now)) else s.alerts[a]
  }

  /** Then, the recovery of the alert cleared last is announced, if there is one that has not been. */
  ghost predicate TellsRecovery(cat: Catalogue, s: System, s': System, source: Source, event: EventId, notice: Option<Notice>) {
    match notice
    case None => s' == s && forall a :: !Untold(s, a, source)
    case Some(n) =>
      && Untold(s, n.id, source)
      && (forall a :: Untold(s, a, source) ==> s.alerts[a].resolvedAt.value <= s.alerts[n.id].resolvedAt.value)
      && Noticed(s, s', event, RecoveredRequest(cat, n.id, s.alerts[n.id], s.alerts[n.id].resolvedAt.value), n,
                 s.alerts[n.id].(recoveryNotifiedAt := Some(n.at)))
  }

  ghost predicate OthersStay(s: System, s': System, source: Source) {
    forall a :: a in s.alerts && s.alerts[a].source != source ==> a in s'.alerts && s'.alerts[a] == s.alerts[a]
  }

  lemma StillFires(cat: Catalogue, s: System, middle: System, s': System, source: Source, severity: string, title: string, message: string,
                   id: AlertId, event: EventId, notice: Option<Notice>)
    requires Opens(s, middle, source, severity, title, message, id) && id !in s.alerts
    requires TellsOpening(cat, middle, s', source, event, notice)
    ensures OthersStay(s, s', source) && exists a :: IsFiring(s', a, source)
  {
    if notice.Some? { assert IsFiring(s', notice.value.id, source); }
  }

  lemma StillCleared(cat: Catalogue, s: System, middle: System, s': System, source: Source, event: EventId, notice: Option<Notice>)
    requires Clears(s, middle, source) && TellsRecovery(cat, middle, s', source, event, notice)
    ensures OthersStay(s, s', source) && forall a :: !IsFiring(s', a, source)
  {
    forall a: AlertId ensures !IsFiring(s', a, source) { assert a in s.alerts ==> !IsFiring(middle, a, source); }
  }

  class AlertMonitor {
    const store: NotificationService.NotificationStore
    const cat: Catalogue
    var alerts: map<AlertId, Alert>
    var now: int

    ghost function State(): System
      reads this, store
    {
      System(now, store.Tables(), alerts)
    }

    ghost predicate Valid()
      reads this, store
    {
      store.Valid() && Reachable(cat, State())
    }

    constructor (store: NotificationService.NotificationStore, cat: Catalogue, clock: int)
      requires store.Valid() && O.Initial(store.Tables()) && store.now <= clock && Registered(cat, store.dir)
      ensures Valid() && this.store == store && this.cat == cat && alerts == map[]
    {
      this.store := store;
      this.cat := cat;
      alerts := map[];
      now := clock;
      new;
      assert EndsRun(Run(cat, [State()], []), cat, State());
    }

    predicate FiringFor(id: AlertId, source: Source)
      reads this
    {
      id in alerts && alerts[id].source == source && alerts[id].status == Firing
    }

    predicate Unannounced(id: AlertId, source: Source)
      reads this
    {
      id in alerts && alerts[id].source == source && alerts[id].status == Cleared && alerts[id].recoveryNotifiedAt.None?
      && alerts[id].resolvedAt.Some?
    }

    /** The open alert of a source: the latest one, should there be several. */
    method FindFiring(source: Source) returns (found: Option<AlertId>)
      ensures found.None? ==> forall id :: !FiringFor(id, source)
      ensures found.Some? ==> FiringFor(found.value, source)
      ensures found.Some? ==> forall id :: FiringFor(id, source) ==> alerts[id].openedAt <= alerts[found.value].openedAt
    {
      found := None;
      var todo := alerts.Keys;
      while todo != {}
        invariant todo <= alerts.Keys
        invariant found.None? ==> forall id :: FiringFor(id, source) ==> id in todo
        invariant found.Some? ==> FiringFor(found.value, source)
        invariant found.Some? ==> forall id :: FiringFor(id, source) && id !in todo ==> alerts[id].openedAt <= alerts[found.value].openedAt
        decreases todo
      {
        var id :| id in todo;
        todo := todo - {id};
        if FiringFor(id, source) && (found.None? || alerts[found.value].openedAt < alerts[id].openedAt) {
          found := Some(id);
        }
      }
    }

    /** The latest cleared alert of a source whose recovery has not been announced. */
    method FindUnannounced(source: Source) returns (found: Option<AlertId>)
      ensures found.None? ==> forall id :: !Unannounced(id, source)
      ensures found.Some? ==> Unannounced(found.value, source)
      ensures found.Some? ==>
        forall id :: Unannounced(id, source) ==> alerts[id].resolvedAt.value <= alerts[found.value].resolvedAt.value
    {
      found := None;
      var todo := alerts.Keys;
      while todo != {}
        invariant todo <= alerts.Keys
        invariant found.None? ==> forall id :: Unannounced(id, source) ==> id in todo
        invariant found.Some? ==> Unannounced(found.value, source)
        invariant found.Some? ==>
          forall id :: Unannounced(id, source) && id !in todo ==> alerts[id].resolvedAt.value <= alerts[found.value].resolvedAt.value
        decreases todo
      {
        var id :| id in todo;
        todo := todo - {id};
        if Unannounced(id, source) && (found.None? || alerts[found.value].resolvedAt.value < alerts[id].resolvedAt.value) {
          found := Some(id);
        }
      }
    }

    method InsertAlert(id: AlertId, source: Source, severity: string, title: string, message: string)
      requires Valid() && id !in alerts && Unmentioned(store.Tables(), cat.For(source.kind).project, id)
      requires forall b :: !FiringFor(b, source)
      modifies this
      ensures Valid() && alerts == old(alerts)[id := Alert(source, severity, title, message, Firing, now, None, None, None)] && old(now) <= now
    {
      var at := ReadClock(now);
      forall b | b in alerts && alerts[b].source == source ensures alerts[b].status == Cleared {
        assert !FiringFor(b, source);
      }
      TakeStep(cat, State(), Raise(id, source, severity, title, message, at));
      alerts := alerts[id := Alert(source, severity, title, message, Firing, at, None, None, None)];
      now := at;
    }

    /** The emission of an opening, and its mark. Either may fail; the error is only logged. */
    method AnnounceOpening(id: AlertId, event: EventId) returns (ghost n: Notice)
      requires Valid() && id in alerts && alerts[id].status == Firing && alerts[id].notifiedAt.None? && event !in store.events
      modifies this, store
      ensures Valid() && n.id == id
      ensures Noticed(old(State()), State(), event, OpenedRequest(cat, id, old(alerts)[id]), n, old(alerts)[id].(notifiedAt := Some(n.at)))
    {
      OneClock(cat, State());
      var alert := alerts[id];
      var clock := ReadClock(now);
      var at := ReadClock(clock);
      var saved := Succeeds();
      ghost var before, a := State(), Announce(id, event, clock, at, saved);
      TakeStep(cat, before, a);
      var sent := Emit(event, OpenedRequest(cat, id, alert), clock, at);
      if sent && saved {
        alerts := alerts[id := alert.(notifiedAt := Some(at))];
      }
      now := at;
      AnnounceGives(cat, before, a, alerts);
      n := Notice(id, clock, at, saved);
    }

    method Emit(event: EventId, req: E.Request, clock: int, at: int) returns (sent: bool)
      requires store.Valid() && event !in store.events && store.now <= at
      modifies store
      ensures store.Valid()
      ensures store.Tables() == E.EmitRequest(old(store.Tables()), event, req, clock, at).0
      ensures sent == E.EmitRequest(old(store.Tables()), event, req, clock, at).1.Ok?
    {
      var r := NotificationApi.EmitNotification(store, event, req, clock, at);
      sent := r.Ok?;
    }

    method ResolveAlert(id: AlertId)
      requires Valid() && id in alerts && alerts[id].status == Firing
      modifies this
      ensures Valid() && alerts == old(alerts)[id := old(alerts)[id].(status := Cleared, resolvedAt := Some(now))] && old(now) <= now
    {
      var at := ReadClock(now);
      TakeStep(cat, State(), Clear(id, at));
      alerts := alerts[id := alerts[id].(status := Cleared, resolvedAt := Some(at))];
      now := at;
    }

    method AnnounceRecovered(id: AlertId, event: EventId) returns (ghost n: Notice)
      requires Valid() && id in alerts && Unannounced(id, alerts[id].source) && event !in store.events
      modifies this, store
      ensures Valid() && n.id == id
      ensures Noticed(old(State()), State(), event, RecoveredRequest(cat, id, old(alerts)[id], old(alerts)[id].resolvedAt.value), n,
                      old(alerts)[id].(recoveryNotifiedAt := Some(n.at)))
    {
      OneClock(cat, State());
      var alert := alerts[id];
      var clock := ReadClock(now);
      var at := ReadClock(clock);
      var saved := Succeeds();
      ghost var before, a := State(), AnnounceRecovery(id, event, clock, at, saved);
      TakeStep(cat, before, a);
      var sent := Emit(event, RecoveredRequest(cat, id, alert, alert.resolvedAt.value), clock, at);
      if sent && saved {
        alerts := alerts[id := alert.(recoveryNotifiedAt := Some(at))];
      }
      now := at;
      AnnounceRecoveryGives(cat, before, a, alerts);
      n := Notice(id, clock, at, saved);
    }

    /** updateAlertState; `id` and `event` are the random ids it would draw. A failing source has an open alert
        afterwards, and its opening is announced unless it was before; a source that is not failing has none, and the
        latest unannounced recovery is announced. `middle` is the state between the two. */
    method UpdateAlertState(source: Source, failing: bool, title: string, message: string, severity: string, id: AlertId, event: EventId)
      returns (ghost middle: System, ghost notice: Option<Notice>)
      requires Valid() && id !in alerts && Unmentioned(store.Tables(), cat.For(source.kind).project, id) && event !in store.events
      modifies this, store
      ensures Valid()
      ensures failing ==> Opens(old(State()), middle, source, severity, title, message, id)
                          && TellsOpening(cat, middle, State(), source, event, notice)
      ensures !failing ==> Clears(old(State()), middle, source) && TellsRecovery(cat, middle, State(), source, event, notice)
      ensures failing <==> exists a :: IsFiring(State(), a, source)
      ensures OthersStay(old(State()), State(), source)
    {
      ghost var before := State();
      var openAlert := FindFiring(source);
      if failing {
        var current := EnsureOpen(source, openAlert, title, message, severity, id);
        middle := State();
        notice := TellOpening(source, current, event);
        StillFires(cat, before, middle, State(), source, severity, title, message, id, event, notice);
      } else {
        ClearOpen(source, openAlert);
        middle := State();
        notice := TellRecovered(source, event);
        StillCleared(cat, before, middle, State(), source, event, notice);
      }
    }

    /** An open alert of a failing source: the one there is, or a new one. */
    method EnsureOpen(source: Source, openAlert: Option<AlertId>, title: string, message: string, severity: string, id: AlertId)
      returns (current: AlertId)
      requires Valid() && id !in alerts && Unmentioned(store.Tables(), cat.For(source.kind).project, id)
      requires openAlert.None? ==> forall a :: !FiringFor(a, source)
      requires openAlert.Some? ==> FiringFor(openAlert.value, source)
      modifies this
      ensures Valid() && IsFiring(State(), current, source)
      ensures Opens(old(State()), State(), source, severity, title, message, id)
    {
      if openAlert.Some? {
        current := openAlert.value;
        assert IsFiring(State(), current, source);
        return;
      }
      assert forall a :: IsFiring(State(), a, source) ==> FiringFor(a, source);
      InsertAlert(id, source, severity, title, if |message| <= MESSAGE_LENGTH then message else message[..MESSAGE_LENGTH]);
      var found := FindFiring(source);
      assert FiringFor(id, source);
      current := found.value;
    }

    method TellOpening(source: Source, current: AlertId, event: EventId) returns (ghost notice: Option<Notice>)
      requires Valid() && IsFiring(State(), current, source) && event !in store.events
      modifies this, store
      ensures Valid() && TellsOpening(cat, old(State()), State(), source, event, notice)
    {
      notice := None;
      if alerts[current].notifiedAt.None? {
        ghost var n := AnnounceOpening(current, event);
        notice := Some(n);
      }
    }

    method ClearOpen(source: Source, openAlert: Option<AlertId>)
      requires Valid()
      requires openAlert.None? ==> forall a :: !FiringFor(a, source)
      requires openAlert.Some? ==> FiringFor(openAlert.value, source)
      modifies this
      ensures Valid() && Clears(old(State()), State(), source)
    {
      ghost var before := State();
      OneClock(cat, before);
      forall a | a in alerts && IsFiring(before, a, source) ensures openAlert == Some(a) { assert FiringFor(a, source); }
      if openAlert.Some? {
        ResolveAlert(openAlert.value);
      }
    }

    method TellRecovered(source: Source, event: EventId) returns (ghost notice: Option<Notice>)
      requires Valid() && event !in store.events
      modifies this, store
      ensures Valid() && TellsRecovery(cat, old(State()), State(), source, event, notice)
    {
      notice := None;
      var pending := FindUnannounced(source);
      assert forall a :: Untold(State(), a, source) ==> Unannounced(a, source);
      if pending.Some? {
        ghost var n := AnnounceRecovered(pending.value, event);
        notice := Some(n);
      }
    }
  }
}
