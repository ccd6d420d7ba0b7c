/**
 What the provisioning protocol keeps: the facts that hold in every run, and the three agreements between an
 application's record, its work and its remote client that a torn step can break.
 */
module Invariant {
  import opened Common
  import opened Domain
  import opened Repositories
  import opened Hydra
  import opened Protocol
  import opened Lifecycle

  // ---------------------------------------------------------------- records

  /**
   Client identifier, secret and version are set exactly in Approved and Revoked records, the secret under its binding.
   */
  predicate CredentialFields(app: Application) {
    if app.status.Approved? || app.status.Revoked?
    then
      && app.clientId != "" && app.secretVersion >= 1
      && app.secret.Sealed? && app.secret.binding == Binding(app.id, app.clientId)
    else app.clientId == "" && app.secret.NoCiphertext? && app.secretVersion == 0
  }

  predicate RecordOk(a: AppId, app: Application) {
    app.id == a && CredentialFields(app)
  }

  ghost predicate RecordsOk(apps: Apps, issued: set<AppId>) {
    forall a :: a in apps ==> a in issued && RecordOk(a, apps[a])
  }

  // ---------------------------------------------------------------- the outbox

  predicate EventOk(o: Outbox, issued: set<AppId>, e: EventId)
    requires e in o.events
  {
    var v := o.events[e];
    && e != "" && v.id == e && v.kind.ProvisionApplication? && v.app in issued
    && v.key == ProvisionKey(v.app) && v.key in o.byKey && o.byKey[v.key] == e
  }

  /** The event map and the key index are inverse to each other, and every event is a provisioning event. */
  ghost predicate Indexed(o: Outbox, issued: set<AppId>) {
    && (forall e :: e in o.events ==> EventOk(o, issued, e))
    && (forall k :: k in o.byKey ==> o.byKey[k] in o.events && o.events[o.byKey[k]].key == k)
  }

  predicate Started(status: Status) {
    status.Provisioning? || status.Approved? || status.Revoked?
  }

  predicate Queued(o: Outbox, a: AppId) {
    ProvisionKey(a) in o.byKey
  }

  /** The application's event exists and is not completed. */
  predicate Pending(o: Outbox, a: AppId) {
    Queued(o, a) && o.byKey[ProvisionKey(a)] in o.events && o.events[o.byKey[ProvisionKey(a)]].completedAt.None?
  }

  /** Only started applications ever had an event, and it is not completed while they are provisioning. */
  predicate EventFits(o: Outbox, a: AppId, status: Status) {
    Queued(o, a) ==> Started(status) && (status.Provisioning? ==> Pending(o, a))
  }

  ghost predicate WorkFits(apps: Apps, o: Outbox) {
    forall a :: a in apps ==> EventFits(o, a, apps[a].status)
  }

  /** Credentials are cached only for provisioning applications with an event. */
  ghost predicate CacheOwned(st: State) {
    forall a :: a in st.cache ==>
      a in st.store.apps && st.store.apps[a].status.Provisioning? && Queued(st.store.outbox, a)
  }

  // ---------------------------------------------------------------- remote clients

  /**
   The remote client an application answers for: through the cache while provisioning, by its record once approved.
   */
  function Holds(st: State, a: AppId): Option<ClientId> {
    if a in st.cache then Some(st.cache[a].id)
    else if a in st.store.apps && st.store.apps[a].status.Approved? then Some(st.store.apps[a].clientId)
    else None
  }

  /** The same, with the client a revoked application had. */
  function Names(st: State, a: AppId): Option<ClientId> {
    if a in st.cache then Some(st.cache[a].id)
    else if a in st.store.apps && (st.store.apps[a].status.Approved? || st.store.apps[a].status.Revoked?)
    then Some(st.store.apps[a].clientId)
    else None
  }

  /** No two applications name one client. */
  ghost predicate NamesApart(st: State) {
    && (forall a :: Names(st, a).Some? ==> Names(st, a).value in st.granted)
    && (forall a, b :: Names(st, a).Some? && Names(st, a) == Names(st, b) ==> a == b)
  }

  /** Every live client has an application that answers for it. */
  ghost predicate NoOrphans(st: State) {
    forall c :: c in st.store.live ==> c in st.granted && exists a :: Holds(st, a) == Some(c)
  }

  /** What holds in every reachable state, whatever fails and wherever. */
  ghost predicate Base(st: State) {
    && RecordsOk(st.store.apps, st.issued) && Indexed(st.store.outbox, st.issued)
    && WorkFits(st.store.apps, st.store.outbox) && CacheOwned(st)
    && NamesApart(st) && NoOrphans(st)
  }

  // ---------------------------------------------------------------- the three agreements of one application

  /** The client it answers for is live. */
  predicate Present(st: State, a: AppId) {
    Holds(st, a).Some? ==> Holds(st, a).value in st.store.live
  }

  /** Hydra's client agrees with the record on everything but the token policy. */
  predicate Agrees(app: Application, client: Client) {
    && client.registration == RegistrationOf(app, client.registration.policy)
    && Open(app.secret, Binding(app.id, app.clientId)) == Some(client.secret)
  }

  /** The client a provisioning application gets: its own registration with the given secret. */
  predicate RegisteredAs(app: Application, client: Client, secret: string) {
    client == Client(RegistrationOf(app, StandardPolicy), secret)
  }

  /** If live, its client has the content of its record, and of its cached credentials while provisioning. */
  predicate Matches(st: State, a: AppId) {
    var held := Holds(st, a);
    held.Some? && held.value in st.store.live && a in st.store.apps ==>
      if a in st.cache then RegisteredAs(st.store.apps[a], st.store.live[held.value], st.cache[a].secret)
      else Agrees(st.store.apps[a], st.store.live[held.value])
  }

  /** While it is provisioning, an uncompleted event works on it. */
  predicate Supplied(st: State, a: AppId) {
    a in st.store.apps && st.store.apps[a].status.Provisioning? ==> Pending(st.store.outbox, a)
  }

  ghost predicate Inv(st: State) {
    Base(st) && forall a :: Present(st, a) && Matches(st, a) && Supplied(st, a)
  }

  // ---------------------------------------------------------------- what the invariant says about one application

  lemma Parts(st: State)
    requires Base(st)
    ensures RecordsOk(st.store.apps, st.issued) && Indexed(st.store.outbox, st.issued)
    ensures WorkFits(st.store.apps, st.store.outbox) && CacheOwned(st) && NamesApart(st) && NoOrphans(st)
  {
  }

  lemma Known(st: State, a: AppId)
    requires Base(st) && a in st.store.apps
    ensures a in st.issued && RecordOk(a, st.store.apps[a]) && EventFits(st.store.outbox, a, st.store.apps[a].status)
    ensures a in st.cache ==> st.store.apps[a].status.Provisioning?
  {
  }

  lemma KnownCached(st: State, a: AppId)
    requires Base(st) && a in st.cache
    ensures a in st.store.apps && st.store.apps[a].status.Provisioning? && Pending(st.store.outbox, a)
  {
  }

  lemma KnownEvent(st: State, e: EventId)
    requires Base(st) && e in st.store.outbox.events
    ensures EventOk(st.store.outbox, st.issued, e)
  {
  }

  /** An identifier that was never drawn names no record, no cached credential and no event. */
  lemma NotIssued(st: State, a: AppId)
    requires Base(st) && a !in st.issued
    ensures a !in st.store.apps && a !in st.cache && !Queued(st.store.outbox, a)
  {
    var o := st.store.outbox;
    assert Queued(o, a) ==> EventOk(o, st.issued, o.byKey[ProvisionKey(a)]);
  }

  /** Applications that answer for one client are the same. */
  lemma HeldOnce(st: State, a: AppId, b: AppId)
    requires NamesApart(st)
    requires Holds(st, a).Some? && Holds(st, a) == Holds(st, b)
    ensures a == b && Holds(st, a).value in st.granted
  {
    assert Names(st, a) == Names(st, b);
  }

  lemma EnqueuedIndexed(o: Outbox, issued: set<AppId>, a: AppId, eventId: EventId, now: Time)
    requires Indexed(o, issued) && a in issued && !Queued(o, a) && eventId != "" && eventId !in o.events
    ensures Indexed(Enqueued(o, ProvisionEvent(a, eventId, now)), issued)
  {
    var o' := Enqueued(o, ProvisionEvent(a, eventId, now));
    forall e | e in o'.events ensures EventOk(o', issued, e) {
      if e != eventId {
        assert EventOk(o, issued, e);
        if o.events[e].key == ProvisionKey(a) {
          assert false;
        }
      }
    }
    forall k | k in o'.byKey ensures o'.byKey[k] in o'.events && o'.events[o'.byKey[k]].key == k {
      if k != ProvisionKey(a) {
        assert o.byKey[k] in o.events;
      }
    }
  }

  /** An event keeps everything but its claim, its due time and possibly its completion. */
  predicate SameEvent(v: OutboxEvent, v': OutboxEvent) {
    v'.id == v.id && v'.key == v.key && v'.kind == v.kind && v'.app == v.app
  }
}
