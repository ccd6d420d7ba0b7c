/**
 Browser sessions with a sliding and an absolute lifetime (internal/session).  Both stores are proved to
 answer every call as one closed form over the history of calls prescribes.
 */
module Sessions {
  import opened Common

  datatype Session = Session(
    id: string, subject: string, homeVerified: bool,
    createdAt: Time, lastSeenAt: Time, expiresAt: Time, absoluteExpiresAt: Time)

  /** The SHA-256 digest of a session identifier, taken to be collision free. */
  datatype Digest = Digest(of: string)

  datatype Ttl = Ttl(sliding: int, absolute: int)

  datatype Op =
    | Create(subject: string, id: string) | Get(id: string) | Touch(id: string)
    | MarkHomeVerified(id: string) | Delete(id: string)

  datatype Call = Call(now: Time, op: Op)

  datatype Answer = Found(session: Session) | NotFound | Refused | Done

  predicate Accepts(ttl: Ttl, subject: string) {
    subject != "" && ttl.sliding > 0 && ttl.absolute > 0
  }

  function Expiry(now: Time, sliding: int, absolute: int): (r: Time)
    ensures r <= now + sliding && r <= now + absolute && (r == now + sliding || r == now + absolute)
  {
    if now + sliding > now + absolute then now + absolute else now + sliding
  }

  predicate ValidAt(s: Session, now: Time) {
    now < s.expiresAt && now < s.absoluteExpiresAt
  }

  function Fresh(ttl: Ttl, subject: string, id: string, now: Time): Session {
    Session(id, subject, false, now, now, Expiry(now, ttl.sliding, ttl.absolute), now + ttl.absolute)
  }

  function Clamped(at: Time, limit: Time): Time {
    if at > limit then limit else at
  }

  /** The session after an accepted Touch or MarkHomeVerified. */
  function Refreshed(ttl: Ttl, s: Session, id: string, now: Time, verify: bool): Session {
    var until := Expiry(now, ttl.sliding, s.absoluteExpiresAt - now);
    s.(id := id, homeVerified := s.homeVerified || verify, lastSeenAt := now,
       expiresAt := Clamped(until, s.absoluteExpiresAt))
  }

  // ---------------------------------------------------------------- the in-process store

  type Sessions = map<Digest, Session>

  function MemoryRefresh(ttl: Ttl, data: Sessions, id: string, now: Time, verify: bool): (Sessions, Answer) {
    var key := Digest(id);
    if key !in data || !ValidAt(data[key], now) || data[key].absoluteExpiresAt - now <= 0 then (data - {key}, NotFound)
    else
      var s := Refreshed(ttl, data[key], id, now, verify);
      (data[key := s], Found(s))
  }

  function MemoryStep(ttl: Ttl, data: Sessions, call: Call): (Sessions, Answer) {
    match call.op
    case Create(subject, id) =>
      if !Accepts(ttl, subject) then (data, Refused)
      else (data[Digest(id) := Fresh(ttl, subject, id, call.now)], Found(Fresh(ttl, subject, id, call.now)))
    case Get(id) =>
      if Digest(id) !in data then (data, NotFound)
      else if !ValidAt(data[Digest(id)], call.now) then (data - {Digest(id)}, NotFound)
      else (data, Found(data[Digest(id)].(id := id)))
    case Touch(id) => MemoryRefresh(ttl, data, id, call.now, false)
    case MarkHomeVerified(id) => MemoryRefresh(ttl, data, id, call.now, true)
    case Delete(id) => (data - {Digest(id)}, Done)
  }

  class MemoryStore {
    const ttl: Ttl
    var data: Sessions

    constructor (ttl: Ttl)
      ensures this.ttl == ttl && data == map[]
    {
      this.ttl := ttl;
      data := map[];
    }

    method Create(subject: string, id: string, now: Time) returns (r: Answer)
      modifies this
      ensures (data, r) == MemoryStep(ttl, old(data), Call(now, Op.Create(subject, id)))
    {
      if subject == "" || ttl.sliding <= 0 || ttl.absolute <= 0 {
        return Refused;
      }
      var session := Session(id, subject, false, now, now, Expiry(now, ttl.sliding, ttl.absolute), now + ttl.absolute);
      data := data[Digest(id) := session];
      r := Found(session);
    }

    method Get(id: string, now: Time) returns (r: Answer)
      modifies this
      ensures (data, r) == MemoryStep(ttl, old(data), Call(now, Op.Get(id)))
    {
      var key := Digest(id);
      if key !in data {
        return NotFound;
      }
      var session := data[key];
      if !ValidAt(session, now) {
        data := data - {key};
        return NotFound;
      }
      r := Found(session.(id := id));
    }

    method Touch(id: string, now: Time) returns (r: Answer)
      modifies this
      ensures (data, r) == MemoryStep(ttl, old(data), Call(now, Op.Touch(id)))
    {
      r := Refresh(id, now, false);
    }

    method MarkHomeVerified(id: string, now: Time) returns (r: Answer)
      modifies this
      ensures (data, r) == MemoryStep(ttl, old(data), Call(now, Op.MarkHomeVerified(id)))
    {
      r := Refresh(id, now, true);
    }

    /** The body that Touch and MarkHomeVerified share. */
    method Refresh(id: string, now: Time, verify: bool) returns (r: Answer)
      modifies this
      ensures (data, r) == MemoryRefresh(ttl, old(data), id, now, verify)
    {
      var key := Digest(id);
      if key !in data || !ValidAt(data[key], now) {
        data := data - {key};
        return NotFound;
      }
      var session := data[key].(lastSeenAt := now);
      if verify {
        session := session.(homeVerified := true);
      }
      var remaining := session.absoluteExpiresAt - now;
      session := session.(expiresAt := Expiry(now, ttl.sliding, remaining));
      if session.expiresAt > session.absoluteExpiresAt {
        session := session.(expiresAt := session.absoluteExpiresAt);
      }
      session := session.(id := id);
      data := if remaining <= 0 then data - {key} else data[key := session];
      r := if remaining <= 0 then NotFound else Found(session);
    }

    method Delete(id: string)
      modifies this
      ensures data == MemoryStep(ttl, old(data), Call(0, Op.Delete(id))).0
    {
      data := data - {Digest(id)};
    }
  }

  // ---------------------------------------------------------------- the Redis store

  /** A Redis value and the instant at which the server evicts it. */
  datatype Entry = Entry(session: Session, evictAt: Time)

  type Keyspace = map<Digest, Entry>

  /** What the server still holds at an instant. */
  function Visible(data: Keyspace, now: Time): Keyspace {
    map k | k in data && now < data[k].evictAt :: data[k]
  }

  /** Store a session with the time it has left; a session without any is not stored. */
  function RedisSave(data: Keyspace, s: Session, now: Time): (Keyspace, Answer) {
    var ttl := s.expiresAt - now;
    if ttl <= 0 then (data, NotFound) else (data[Digest(s.id) := Entry(s, now + ttl)], Found(s))
  }

  function RedisGet(data: Keyspace, id: string, now: Time): (Keyspace, Answer) {
    if Digest(id) !in data then (data, NotFound)
    else if !ValidAt(data[Digest(id)].session, now) then (data - {Digest(id)}, NotFound)
    else (data, Found(data[Digest(id)].session.(id := id)))
  }

  function RedisRefresh(ttl: Ttl, data: Keyspace, id: string, now: Time, verify: bool): (Keyspace, Answer) {
    var (data1, answer) := RedisGet(data, id, now);
    if !answer.Found? then (data1, answer)
    else RedisSave(data1, Refreshed(ttl, answer.session, id, now, verify), now)
  }

  function RedisStep(ttl: Ttl, data: Keyspace, call: Call): (Keyspace, Answer) {
    var held := Visible(data, call.now);
    match call.op
    case Create(subject, id) =>
      if !Accepts(ttl, subject) then (held, Refused) else RedisSave(held, Fresh(ttl, subject, id, call.now), call.now)
    case Get(id) => RedisGet(held, id, call.now)
    case Touch(id) => RedisRefresh(ttl, held, id, call.now, false)
    case MarkHomeVerified(id) => RedisRefresh(ttl, held, id, call.now, true)
    case Delete(id) => (held - {Digest(id)}, Done)
  }

  class RedisStore {
    const ttl: Ttl
    var keys: Keyspace

    constructor (ttl: Ttl)
      ensures this.ttl == ttl && keys == map[]
    {
      this.ttl := ttl;
      keys := map[];
    }

    /** The server evicts what has expired before it serves a command at `now`. */
    method Evict(now: Time)
      modifies this
      ensures keys == Visible(old(keys), now)
    {
      keys := map k | k in keys && now < keys[k].evictAt :: keys[k];
    }

    method Save(session: Session, now: Time) returns (r: Answer)
      modifies this
      ensures (keys, r) == RedisSave(old(keys), session, now)
    {
      var ttl := session.expiresAt - now;
      if ttl <= 0 {
        return NotFound;
      }
      keys := keys[Digest(session.id) := Entry(session, now + ttl)];
      r := Found(session);
    }

    method Create(subject: string, id: string, now: Time) returns (r: Answer)
      modifies this
      ensures (keys, r) == RedisStep(ttl, old(keys), Call(now, Op.Create(subject, id)))
    {
      Evict(now);
      if subject == "" || ttl.sliding <= 0 || ttl.absolute <= 0 {
        return Refused;
      }
      var session := Session(id, subject, false, now, now, Expiry(now, ttl.sliding, ttl.absolute), now + ttl.absolute);
      r := Save(session, now);
    }

    method Get(id: string, now: Time) returns (r: Answer)
      modifies this
      ensures (keys, r) == RedisStep(ttl, old(keys), Call(now, Op.Get(id)))
    {
      Evict(now);
      var key := Digest(id);
      if key !in keys {
        return NotFound;
      }
      var session := keys[key].session;
      if !ValidAt(session, now) {
        keys := keys - {key};
        return NotFound;
      }
      r := Found(session.(id := id));
    }

    method Touch(id: string, now: Time) returns (r: Answer)
      modifies this
      ensures (keys, r) == RedisStep(ttl, old(keys), Call(now, Op.Touch(id)))
    {
      r := Get(id, now);
      if r.Found? {
        var session := r.session.(lastSeenAt := now);
        session := session.(expiresAt := Expiry(now, ttl.sliding, session.absoluteExpiresAt - now));
        if session.expiresAt > session.absoluteExpiresAt {
          session := session.(expiresAt := session.absoluteExpiresAt);
        }
        r := Save(session, now);
      }
    }

    method MarkHomeVerified(id: string, now: Time) returns (r: Answer)
      modifies this
      ensures (keys, r) == RedisStep(ttl, old(keys), Call(now, Op.MarkHomeVerified(id)))
    {
      r := Get(id, now);
      if r.Found? {
        var session := r.session.(homeVerified := true, lastSeenAt := now);
        session := session.(expiresAt := Expiry(now, ttl.sliding, session.absoluteExpiresAt - now));
        if session.expiresAt > session.absoluteExpiresAt {
          session := session.(expiresAt := session.absoluteExpiresAt);
        }
        r := Save(session, now);
      }
    }

    method Delete(id: string, now: Time) returns (r: Answer)
      modifies this
      ensures (keys, r) == RedisStep(ttl, old(keys), Call(now, Op.Delete(id)))
    {
      Evict(now);
      keys := keys - {Digest(id)};
      r := Done;
    }
  }

  // ---------------------------------------------------------------- the closed form

  /**
   What the calls so far say about one session identifier. `times` holds its creation and every later refresh attempt.
   */
  datatype Trace = Trace(subject: string, times: seq<Time>, verified: bool, deleted: bool)

  const NO_TRACE := Trace("", [], false, false)

  function Traced(ttl: Ttl, tr: Trace, id: string, call: Call): (r: Trace)
    ensures tr.times != [] ==> r.times != []
  {
    match call.op
    case Create(subject, i) => if i == id && subject != "" && ttl.sliding > 0 && ttl.absolute > 0
      then Trace(subject, [call.now], false, false) else tr
    case Get(_) => tr
    case Touch(i) => if i == id && tr.times != [] then tr.(times := tr.times + [call.now]) else tr
    case MarkHomeVerified(i) =>
      if i == id && tr.times != [] then tr.(times := tr.times + [call.now], verified := true) else tr
    case Delete(i) => if i == id then tr.(deleted := true) else tr
  }

  function TraceOf(ttl: Ttl, h: seq<Call>, id: string): Trace {
    if h == [] then NO_TRACE else Traced(ttl, TraceOf(ttl, h[..|h| - 1], id), id, h[|h| - 1])
  }

  /** No refresh came a sliding lifetime or more after the one before it. */
  ghost predicate Unbroken(ttl: Ttl, times: seq<Time>) {
    forall k :: 0 <= k < |times| - 1 ==> times[k + 1] - times[k] < ttl.sliding
  }

  function Last(times: seq<Time>): Time
    requires times != []
  {
    times[|times| - 1]
  }

  /** The closed form: a created, never deleted session is alive while no gap reaches the sliding
      lifetime and the absolute lifetime since its creation has not run out. */
  ghost predicate Alive(ttl: Ttl, tr: Trace, t: Time) {
    && tr.times != [] && !tr.deleted
    && Unbroken(ttl, tr.times) && t - Last(tr.times) < ttl.sliding && t - tr.times[0] < ttl.absolute
  }

  function RecordOf(ttl: Ttl, id: string, tr: Trace): Session
    requires tr.times != []
  {
    var limit := tr.times[0] + ttl.absolute;
    var slid := Last(tr.times) + ttl.sliding;
    Session(id, tr.subject, tr.verified, tr.times[0], Last(tr.times), if slid < limit then slid else limit, limit)
  }

  /** What a call must answer, given the trace of the session it names. */
  ghost function Prescribed(ttl: Ttl, before: Trace, call: Call): Answer {
    var after := Traced(ttl, before, call.op.id, call);
    match call.op
    case Create(subject, id) => if subject != "" && ttl.sliding > 0 && ttl.absolute > 0
      then Found(RecordOf(ttl, id, after)) else Refused
    case Delete(_) => Done
    case _ => if Alive(ttl, before, call.now) then Found(RecordOf(ttl, call.op.id, after)) else NotFound
  }

  /** What a call must answer after the calls in `h`. */
  ghost function Expected(ttl: Ttl, h: seq<Call>, call: Call): Answer {
    Prescribed(ttl, TraceOf(ttl, h, call.op.id), call)
  }

  /** The clock does not run backwards. */
  ghost predicate History(h: seq<Call>) {
    forall i, j :: 0 <= i < j < |h| ==> h[i].now <= h[j].now
  }

  function MemoryAfter(ttl: Ttl, h: seq<Call>): Sessions {
    if h == [] then map[] else MemoryStep(ttl, MemoryAfter(ttl, h[..|h| - 1]), h[|h| - 1]).0
  }

  function RedisAfter(ttl: Ttl, h: seq<Call>): Keyspace {
    if h == [] then map[] else RedisStep(ttl, RedisAfter(ttl, h[..|h| - 1]), h[|h| - 1]).0
  }

  /** The entry for one identifier agrees with its trace from the instant `t` on. */
  ghost predicate Faithful(ttl: Ttl, data: Sessions, id: string, tr: Trace, t: Time) {
    if Digest(id) in data
    then
      && tr.times != [] && !tr.deleted && Unbroken(ttl, tr.times) && ttl.sliding > 0 && ttl.absolute > 0
      && tr.times[0] <= Last(tr.times) <= t && data[Digest(id)] == RecordOf(ttl, id, tr)
    else !Alive(ttl, tr, t)
  }

  /** An entry is valid exactly when the closed form says so. */
  lemma ValidIffAlive(ttl: Ttl, data: Sessions, id: string, tr: Trace, t: Time, now: Time)
    requires Faithful(ttl, data, id, tr, t) && t <= now
    ensures Digest(id) in data && ValidAt(data[Digest(id)], now) <==> Alive(ttl, tr, now)
  {
  }

  lemma UnbrokenGrows(ttl: Ttl, times: seq<Time>, now: Time)
    requires times != []
    ensures Unbroken(ttl, times + [now]) <==> Unbroken(ttl, times) && now - Last(times) < ttl.sliding
  {
    var more := times + [now];
    assert more[|times|] == now && more[|times| - 1] == Last(times);
    if Unbroken(ttl, more) {
      forall k | 0 <= k < |times| - 1 ensures times[k + 1] - times[k] < ttl.sliding {
        assert more[k + 1] == times[k + 1] && more[k] == times[k];
      }
    }
  }

  /** Refreshing a stored session is appending the instant to its trace. */
  lemma RefreshedRecord(ttl: Ttl, id: string, tr: Trace, now: Time, verify: bool)
    requires tr.times != []
    ensures var tr' := tr.(times := tr.times + [now], verified := tr.verified || verify);
            Refreshed(ttl, RecordOf(ttl, id, tr), id, now, verify) == RecordOf(ttl, id, tr')
  {
  }

  lemma RefreshKeeps(ttl: Ttl, data: Sessions, id: string, tr: Trace, now: Time, verify: bool)
    requires Faithful(ttl, data, id, tr, now)
    ensures var tr' := if tr.times == [] then tr else tr.(times := tr.times + [now], verified := tr.verified || verify);
            Faithful(ttl, MemoryRefresh(ttl, data, id, now, verify).0, id, tr', now)
  {
    ValidIffAlive(ttl, data, id, tr, now, now);
    if tr.times != [] {
      UnbrokenGrows(ttl, tr.times, now);
      RefreshedRecord(ttl, id, tr, now, verify);
      hide Unbroken, Refreshed, RecordOf;
    }
  }

  lemma MemoryKeeps(ttl: Ttl, data: Sessions, id: string, tr: Trace, t: Time, call: Call)
    requires Faithful(ttl, data, id, tr, t) && t <= call.now
    ensures Faithful(ttl, MemoryStep(ttl, data, call).0, id, Traced(ttl, tr, id, call), call.now)
  {
    Later(ttl, data, id, tr, t, call.now);
    if (call.op.Touch? || call.op.MarkHomeVerified?) && call.op.id == id {
      RefreshKeeps(ttl, data, id, tr, call.now, call.op.MarkHomeVerified?);
      hide Faithful, MemoryRefresh;
    } else {
      ValidIffAlive(ttl, data, id, tr, call.now, call.now);
      hide Refreshed;
    }
  }

  /** After any history, every entry of the in-process store agrees with its trace. */
  lemma {:induction false} MemoryFaithful(ttl: Ttl, h: seq<Call>, id: string, t: Time)
    requires History(h) && (h != [] ==> h[|h| - 1].now <= t)
    ensures Faithful(ttl, MemoryAfter(ttl, h), id, TraceOf(ttl, h, id), t)
  {
    if h != [] {
      var init, call := h[..|h| - 1], h[|h| - 1];
      MemoryFaithful(ttl, init, id, call.now);
      MemoryKeeps(ttl, MemoryAfter(ttl, init), id, TraceOf(ttl, init, id), call.now, call);
      Later(ttl, MemoryAfter(ttl, h), id, TraceOf(ttl, h, id), call.now, t);
    }
  }

  lemma Later(ttl: Ttl, data: Sessions, id: string, tr: Trace, t: Time, t': Time)
    requires Faithful(ttl, data, id, tr, t) && t <= t'
    ensures Faithful(ttl, data, id, tr, t')
  {
  }

  lemma AnswersAsTraced(ttl: Ttl, data: Sessions, tr: Trace, call: Call)
    requires Faithful(ttl, data, call.op.id, tr, call.now)
    ensures MemoryStep(ttl, data, call).1 == Prescribed(ttl, tr, call)
  {
    ValidIffAlive(ttl, data, call.op.id, tr, call.now, call.now);
    hide Unbroken, Alive;
    if (call.op.Touch? || call.op.MarkHomeVerified?) && tr.times != [] {
      RefreshedRecord(ttl, call.op.id, tr, call.now, call.op.MarkHomeVerified?);
      hide Refreshed, RecordOf;
    }
  }

  lemma Extended(h: seq<Call>, call: Call)
    requires History(h + [call])
    ensures History(h) && (h != [] ==> h[|h| - 1].now <= call.now)
  {
    var all := h + [call];
    assert all[|h|] == call && forall i :: 0 <= i < |h| ==> all[i] == h[i];
  }

  /** The in-process store answers every call of every history as the closed form prescribes. */
  lemma MemoryMeetsClosedForm(ttl: Ttl, h: seq<Call>, call: Call)
    requires History(h + [call])
    ensures MemoryStep(ttl, MemoryAfter(ttl, h), call).1 == Expected(ttl, h, call)
  {
    hide History, MemoryStep, Prescribed;
    Extended(h, call);
    MemoryFaithful(ttl, h, call.op.id, call.now);
    AnswersAsTraced(ttl, MemoryAfter(ttl, h), TraceOf(ttl, h, call.op.id), call);
  }

  /** The two stores hold the same sessions for as long as they are valid. */
  ghost predicate Alike(data: Sessions, keys: Keyspace, t: Time) {
    && (forall k :: k in keys ==> k in data && keys[k].session == data[k])
    && (forall k :: k in keys ==>
                      keys[k].evictAt == data[k].expiresAt <= data[k].absoluteExpiresAt && data[k].id == k.of)
    && (forall k :: k in data && ValidAt(data[k], t) ==> k in keys)
  }

  /** Eviction removes exactly what is no longer valid. */
  lemma Evicted(data: Sessions, keys: Keyspace, t: Time, now: Time)
    requires Alike(data, keys, t) && t <= now
    ensures Alike(data, Visible(keys, now), now)
    ensures forall k :: k in Visible(keys, now) <==> k in data && ValidAt(data[k], now)
  {
  }

  /** A session that a refresh finds valid has time left, before and after: neither early exit of a refresh is taken. */
  lemma TimeLeft(ttl: Ttl, s: Session, id: string, now: Time, verify: bool)
    requires ValidAt(s, now) && ttl.sliding > 0
    ensures s.absoluteExpiresAt - now > 0 && Refreshed(ttl, s, id, now, verify).expiresAt - now > 0
    ensures Refreshed(ttl, s, id, now, verify).expiresAt <= s.absoluteExpiresAt
  {
  }

  lemma RefreshLockstep(ttl: Ttl, data: Sessions, held: Keyspace, id: string, now: Time, verify: bool)
    requires Alike(data, held, now) && (forall k :: k in held <==> k in data && ValidAt(data[k], now))
    requires held != map[] ==> ttl.sliding > 0
    ensures RedisRefresh(ttl, held, id, now, verify).1 == MemoryRefresh(ttl, data, id, now, verify).1
    ensures Alike(MemoryRefresh(ttl, data, id, now, verify).0, RedisRefresh(ttl, held, id, now, verify).0, now)
    ensures RedisRefresh(ttl, held, id, now, verify).0 != map[] ==> ttl.sliding > 0
  {
    if Digest(id) in held {
      TimeLeft(ttl, data[Digest(id)], id, now, verify);
      assert data[Digest(id)].(id := id) == data[Digest(id)];
    }
  }

  lemma StoreLockstep(data: Sessions, held: Keyspace, s: Session, now: Time)
    requires Alike(data, held, now) && now < s.expiresAt <= s.absoluteExpiresAt
    ensures RedisSave(held, s, now).1 == Found(s) && Alike(data[Digest(s.id) := s], RedisSave(held, s, now).0, now)
  {
  }

  /** The Redis store answers exactly as the in-process store does, and they stay alike. */
  lemma Lockstep(ttl: Ttl, data: Sessions, keys: Keyspace, t: Time, call: Call)
    requires Alike(data, keys, t) && t <= call.now
    requires keys != map[] ==> ttl.sliding > 0
    ensures RedisStep(ttl, keys, call).1 == MemoryStep(ttl, data, call).1
    ensures Alike(MemoryStep(ttl, data, call).0, RedisStep(ttl, keys, call).0, call.now)
    ensures RedisStep(ttl, keys, call).0 != map[] ==> ttl.sliding > 0
  {
    var held := Visible(keys, call.now);
    Evicted(data, keys, t, call.now);
    if call.op.Touch? || call.op.MarkHomeVerified? {
      RefreshLockstep(ttl, data, held, call.op.id, call.now, call.op.MarkHomeVerified?);
      hide Visible, Alike, RedisRefresh, MemoryRefresh;
    } else if call.op.Create? && Accepts(ttl, call.op.subject) {
      StoreLockstep(data, held, Fresh(ttl, call.op.subject, call.op.id, call.now), call.now);
      hide Visible, Alike, RedisSave;
    } else {
      hide Visible, RedisRefresh, MemoryRefresh, RedisSave;
    }
  }

  lemma {:induction false} StoresAlike(ttl: Ttl, h: seq<Call>, t: Time)
    requires History(h) && (h != [] ==> h[|h| - 1].now <= t)
    ensures Alike(MemoryAfter(ttl, h), RedisAfter(ttl, h), t)
    ensures RedisAfter(ttl, h) != map[] ==> ttl.sliding > 0
  {
    if h != [] {
      hide MemoryStep, RedisStep;
      var init, call := h[..|h| - 1], h[|h| - 1];
      StoresAlike(ttl, init, call.now);
      Lockstep(ttl, MemoryAfter(ttl, init), RedisAfter(ttl, init), call.now, call);
    }
  }

  /** The Redis store, evicting on its own, answers every call of every history as the closed form prescribes. */
  lemma RedisMeetsClosedForm(ttl: Ttl, h: seq<Call>, call: Call)
    requires History(h + [call])
    ensures RedisStep(ttl, RedisAfter(ttl, h), call).1 == Expected(ttl, h, call)
  {
    hide History, MemoryStep, RedisStep, Prescribed;
    Extended(h, call);
    StoresAlike(ttl, h, call.now);
    Lockstep(ttl, MemoryAfter(ttl, h), RedisAfter(ttl, h), call.now, call);
    MemoryMeetsClosedForm(ttl, h, call);
  }
}
