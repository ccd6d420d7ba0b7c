/** The in-memory repositories (internal/store/memory).  Each class is specified by functions on its contents. */
module Repositories {
  import opened Common
  import opened Domain

  datatype StoreError = NotFound | Conflict | InvalidTransition

  type Apps = map<AppId, Application>

  /** Compare-and-transition on a map of applications. */
  function Transitioned(apps: Apps, id: AppId, from: Status, to: Status, now: Time): (r: Reply<Apps, StoreError>)
    ensures r.Ok? <==> id in apps && apps[id].status == from && ValidTransition(from, to)
  {
    if id !in apps then Err(NotFound)
    else if apps[id].status != from then Err(Conflict)
    else if !ValidTransition(from, to) then Err(InvalidTransition)
    else Ok(apps[id := apps[id].(status := to, updatedAt := now)])
  }

  function OpenApps(apps: Apps, owner: string): set<AppId> {
    set a | a in apps && apps[a].owner == owner && IsOpen(apps[a].status)
  }

  /** Visiting one more element while counting `s` grows the count exactly when the element belongs to it. */
  lemma VisitOne(s: set<AppId>, left: set<AppId>, id: AppId)
    requires id in left
    ensures |s - (left - {id})| == |s - left| + if id in s then 1 else 0
  {
    if id in s {
      assert s - (left - {id}) == (s - left) + {id};
    } else {
      assert s - (left - {id}) == s - left;
    }
  }

  class ApplicationRepository {
    var data: Apps

    /** Every record is stored under its own identifier. */
    ghost predicate Keyed()
      reads this
    {
      forall a :: a in data ==> data[a].id == a
    }

    constructor ()
      ensures data == map[] && Keyed()
    {
      data := map[];
    }

    method Create(app: Application, wall: Time) returns (r: Reply<(), StoreError>)
      modifies this
      ensures old(Keyed()) ==> Keyed()
      ensures r == if app.id in old(data) then Err(Conflict) else Ok(())
      ensures app.id in old(data) ==> data == old(data)
      ensures app.id !in old(data) ==>
                var created := if app.createdAt == 0 then wall else app.createdAt;
                data == old(data)[app.id := app.(createdAt := created,
                                                 updatedAt := if app.updatedAt == 0 then created else app.updatedAt)]
    {
      if app.id in data {
        return Err(Conflict);
      }
      var created := if app.createdAt == ZERO_TIME then wall else app.createdAt;
      var updated := if app.updatedAt == ZERO_TIME then created else app.updatedAt;
      data := data[app.id := app.(createdAt := created, updatedAt := updated)];
      return Ok(());
    }

    method Get(id: AppId) returns (r: Reply<Application, StoreError>)
      ensures r == if id in data then Ok(data[id]) else Err(NotFound)
    {
      if id !in data {
        return Err(NotFound);
      }
      return Ok(data[id]);
    }

    /** Any record carrying the client identifier; not found exactly when there is none. */
    method GetByClientID(clientId: ClientId) returns (r: Reply<Application, StoreError>)
      ensures r.Err? <==> forall a :: a in data ==> data[a].clientId != clientId
      ensures r.Ok? ==> r.value.clientId == clientId && exists a :: a in data && data[a] == r.value
      ensures r.Err? ==> r.error == NotFound
    {
      var left := data.Keys;
      while left != {}
        invariant left <= data.Keys
        invariant forall a :: a in data && a !in left ==> data[a].clientId != clientId
        decreases left
      {
        var id :| id in left;
        if data[id].clientId == clientId {
          return Ok(data[id]);
        }
        left := left - {id};
      }
      return Err(NotFound);
    }

    method CountOpenByOwner(owner: string) returns (count: nat)
      ensures count == |OpenApps(data, owner)|
      ensures count == |set a | a in data && data[a].owner == owner
                                && data[a].status in {Draft, PendingReview, Provisioning, ChangesRequested}|
    {
      count := 0;
      var left := data.Keys;
      ghost var open := OpenApps(data, owner);
      while left != {}
        invariant left <= data.Keys
        invariant count == |open - left|
        decreases left
      {
        var id :| id in left;
        VisitOne(open, left, id);
        if data[id].owner == owner && IsOpen(data[id].status) {
          count := count + 1;
        }
        left := left - {id};
      }
      assert open - left == open;
      assert open == set a | a in data && data[a].owner == owner
                             && data[a].status in {Draft, PendingReview, Provisioning, ChangesRequested};
    }

    method Transition(id: AppId, from: Status, to: Status, now: Time) returns (r: Reply<Application, StoreError>)
      modifies this
      ensures old(Keyed()) ==> Keyed()
      ensures r.Ok? <==> id in old(data) && old(data)[id].status == from && ValidTransition(from, to)
      ensures data == if r.Ok? then old(data)[id := old(data)[id].(status := to, updatedAt := now)] else old(data)
      ensures r == Err(NotFound) <==> id !in old(data)
      ensures r == Err(Conflict) <==> id in old(data) && old(data)[id].status != from
      ensures Transitioned(old(data), id, from, to, now).Ok? ==>
                data == Transitioned(old(data), id, from, to, now).value && r == Ok(data[id])
      ensures Transitioned(old(data), id, from, to, now).Err? ==>
                data == old(data) && r == Err(Transitioned(old(data), id, from, to, now).error)
    {
      if id !in data {
        return Err(NotFound);
      }
      var app := data[id];
      if app.status != from {
        return Err(Conflict);
      }
      if !ValidTransition(app.status, to) {
        return Err(InvalidTransition);
      }
      app := app.(status := to, updatedAt := now);
      data := data[id := app];
      return Ok(app);
    }

    /** Save is unconditional: it replaces whatever status the stored record has. */
    method Save(app: Application) returns (r: Reply<(), StoreError>)
      modifies this
      ensures old(Keyed()) ==> Keyed()
      ensures r == if app.id in old(data) then Ok(()) else Err(NotFound)
      ensures data == if app.id in old(data) then old(data)[app.id := app] else old(data)
    {
      if app.id !in data {
        return Err(NotFound);
      }
      data := data[app.id := app];
      return Ok(());
    }

    method Delete(id: AppId) returns (r: Reply<(), StoreError>)
      modifies this
      ensures old(Keyed()) ==> Keyed()
      ensures r == if id in old(data) then Ok(()) else Err(NotFound)
      ensures data == old(data) - {id}
    {
      if id !in data {
        return Err(NotFound);
      }
      data := data - {id};
      return Ok(());
    }
  }

  /** The outbox: its events and the index from idempotency key to event. */
  datatype Outbox = Outbox(events: map<EventId, OutboxEvent>, byKey: map<Key, EventId>)

  predicate Stale(e: OutboxEvent, now: Time) {
    e.claimedAt.Some? && now - e.claimedAt.value >= CLAIM_TIMEOUT
  }

  predicate Eligible(e: OutboxEvent, now: Time) {
    e.completedAt.None? && (e.claimedAt.None? || Stale(e, now)) && e.availableAt <= now
  }

  /** An event can be claimed when it is due, not completed, and not held for less than ten minutes. */
  lemma EligibleExactly(e: OutboxEvent, now: Time)
    ensures Eligible(e, now) <==>
              && e.completedAt == None && e.availableAt <= now
              && (e.claimedAt == None || now - e.claimedAt.value >= 600_000_000_000)
  {
  }

  function Claimed(o: Outbox, id: EventId, now: Time): Outbox
    requires id in o.events
  {
    o.(events := o.events[id := o.events[id].(attempts := o.events[id].attempts + 1, claimedAt := Some(now))])
  }

  function Completed(o: Outbox, id: EventId, now: Time): Outbox {
    if id in o.events then o.(events := o.events[id := o.events[id].(completedAt := Some(now))]) else o
  }

  function Retried(o: Outbox, id: EventId, availableAt: Time): Outbox {
    if id in o.events
    then o.(events := o.events[id := o.events[id].(claimedAt := None, availableAt := availableAt)])
    else o
  }

  /** Enqueue an event that carries its identifier, key and due time. */
  function Enqueued(o: Outbox, e: OutboxEvent): Outbox {
    Outbox(o.events[e.id := e], o.byKey[e.key := e.id])
  }

  class OutboxRepository {
    var data: map<EventId, OutboxEvent>
    var byKey: map<Key, EventId>

    ghost function Contents(): Outbox
      reads this
    {
      Outbox(data, byKey)
    }

    /** Every event is stored under its own, non-empty identifier. */
    ghost predicate Keyed()
      reads this
    {
      forall e :: e in data ==> e != "" && data[e].id == e
    }

    constructor ()
      ensures Contents() == Outbox(map[], map[]) && Keyed()
    {
      data := map[];
      byKey := map[];
    }

    /** `generated` and `wall` stand for the identifier and instant the method fills in when they are missing. */
    method Enqueue(event: OutboxEvent, generated: EventId, wall: Time) returns (r: Reply<(), StoreError>)
      modifies this
      ensures old(Keyed()) && generated != "" ==> Keyed()
      ensures r.Err? <==> event.key != NoKey && event.key in old(byKey)
      ensures r.Err? ==> r.error == Conflict && Contents() == old(Contents())
      ensures r.Ok? ==>
                var id := if event.id == "" then generated else event.id;
                var due := if event.availableAt == ZERO_TIME then wall else event.availableAt;
                && data == old(data)[id := event.(id := id, availableAt := due)]
                && byKey == if event.key == NoKey then old(byKey) else old(byKey)[event.key := id]
    {
      if event.key != NoKey && event.key in byKey {
        return Err(Conflict);
      }
      var e := event;
      if e.id == "" {
        e := e.(id := generated);
      }
      if e.availableAt == ZERO_TIME {
        e := e.(availableAt := wall);
      }
      data := data[e.id := e];
      if e.key != NoKey {
        byKey := byKey[e.key := e.id];
      }
      return Ok(());
    }

    /** Claims some eligible event, in the map's unspecified order; not found exactly when none is eligible. */
    method ClaimNext(now: Time) returns (r: Reply<OutboxEvent, StoreError>, ghost choice: Option<EventId>)
      requires Keyed()
      modifies this
      ensures Keyed()
      ensures r.Err? <==> forall e :: e in old(data) ==> !Eligible(old(data)[e], now)
      ensures r.Err? ==> r.error == NotFound && Contents() == old(Contents()) && choice.None?
      ensures r.Ok? ==>
                && choice == Some(r.value.id)
                && r.value.id in old(data) && Eligible(old(data)[r.value.id], now)
                && Contents() == Claimed(old(Contents()), r.value.id, now)
                && data == old(data)[r.value.id := old(data)[r.value.id].(
                                       attempts := old(data)[r.value.id].attempts + 1, claimedAt := Some(now))]
                && byKey == old(byKey)
                && r.value == data[r.value.id]
    {
      var selected: EventId := "";
      var left := data.Keys;
      while left != {}
        invariant left <= old(data).Keys
        invariant data == old(data) && byKey == old(byKey) && selected == ""
        invariant forall e :: e in data && e !in left ==> !Eligible(data[e], now)
        decreases left
      {
        var id :| id in left;
        var event := data[id];
        if Eligible(event, now) {
          data := data[id := event.(claimedAt := None)];
          selected := id;
          break;
        }
        left := left - {id};
      }
      if selected == "" {
        return Err(NotFound), None;
      }
      var event := data[selected];
      event := event.(attempts := event.attempts + 1, claimedAt := Some(now));
      data := data[selected := event];
      assert data == Claimed(old(Contents()), selected, now).events;
      return Ok(event), Some(event.id);
    }

    method Complete(id: EventId, now: Time) returns (r: Reply<(), StoreError>)
      modifies this
      ensures old(Keyed()) ==> Keyed()
      ensures r == if id in old(data) then Ok(()) else Err(NotFound)
      ensures Contents() == Completed(old(Contents()), id, now)
      ensures byKey == old(byKey) && data == if id in old(data)
              then old(data)[id := old(data)[id].(completedAt := Some(now))]
                                             else old(data)
    {
      if id !in data {
        return Err(NotFound);
      }
      data := data[id := data[id].(completedAt := Some(now))];
      return Ok(());
    }

    method Retry(id: EventId, availableAt: Time) returns (r: Reply<(), StoreError>)
      modifies this
      ensures old(Keyed()) ==> Keyed()
      ensures r == if id in old(data) then Ok(()) else Err(NotFound)
      ensures Contents() == Retried(old(Contents()), id, availableAt)
      ensures byKey == old(byKey)
      ensures data == if id in old(data) then old(data)[id := old(data)[id].(claimedAt := None,
                                                                             availableAt := availableAt)]
                      else old(data)
    {
      if id !in data {
        return Err(NotFound);
      }
      data := data[id := data[id].(claimedAt := None, availableAt := availableAt)];
      return Ok(());
    }
  }

  class AuditRepository {
    var data: seq<AuditEvent>

    constructor ()
      ensures data == []
    {
      data := [];
    }

    method Append(event: AuditEvent)
      modifies this
      ensures data == old(data) + [event]
    {
      data := data + [event];
    }
  }
}
