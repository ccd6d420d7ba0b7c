/**
 The cache in front of the level-progress provider (internal/identity/level_progress.go, level_progress_cache.go,
 events.go).
 */
module ProgressCache {
  import opened Common
  import opened LevelProgress
  import U = Users

  /** The cache key's text. */
  function KeyText(prefix: string, id: int): string {
    prefix + Decimal(id)
  }

  /** Distinct users have distinct cache keys. */
  lemma KeyTextInjective(prefix: string, a: int, b: int)
    requires KeyText(prefix, a) == KeyText(prefix, b)
    ensures a == b
  {
    assert Decimal(a) == KeyText(prefix, a)[|prefix|..] && Decimal(b) == KeyText(prefix, b)[|prefix|..];
    DecimalInjective(a, b);
  }

  datatype Entry = Entry(snapshot: Snapshot, evictAt: Time)

  type Entries = map<int, Entry>

  const DEFAULT_TTL: int := 5 * MINUTE

  /** The lifetime asked for, else the configured one, else the default. */
  function Effective(asked: int, configured: int): (ttl: int)
    ensures ttl > 0
    ensures asked > 0 ==> ttl == asked
    ensures asked <= 0 < configured ==> ttl == configured
    ensures asked <= 0 && configured <= 0 ==> ttl == 300_000_000_000
  {
    if asked > 0 then asked else if configured > 0 then configured else DEFAULT_TTL
  }

  function Held(e: Entries, now: Time): Entries {
    map id | id in e && now < e[id].evictAt :: e[id]
  }

  class RedisLevelProgressCache {
    const ttl: int
    var entries: Entries

    constructor (ttl: int)
      ensures this.ttl == ttl && entries == map[]
    {
      this.ttl := ttl;
      entries := map[];
    }

    method Get(id: int, now: Time) returns (r: Option<Snapshot>)
      modifies this
      ensures entries == Held(old(entries), now)
      ensures r == if id in entries then Some(entries[id].snapshot) else None
    {
      entries := map i | i in entries && now < entries[i].evictAt :: entries[i];
      r := if id in entries then Some(entries[id].snapshot) else None;
    }

    method Set(snapshot: Snapshot, asked: int, now: Time)
      modifies this
      ensures entries == old(entries)[snapshot.discourseId := Entry(snapshot, now + Effective(asked, ttl))]
    {
      var life := asked;
      if life <= 0 {
        life := ttl;
      }
      if life <= 0 {
        life := DEFAULT_TTL;
      }
      entries := entries[snapshot.discourseId := Entry(snapshot, now + life)];
    }

    method Invalidate(id: int)
      modifies this
      ensures entries == old(entries) - {id}
    {
      entries := entries - {id};
    }
  }

  datatype Fault = GetFault | FetchFault | SetFault | InvalidateFault

  datatype Error = Unavailable | UnknownUser | InvalidSnapshot

  /** A look-up for a user's Discourse identifier, with the provider's answer should it be asked; or an invalidation. */
  datatype Step =
    | Look(now: Time, id: int, fetched: Snapshot, faults: set<Fault>)
    | Drop(now: Time, id: int, fails: bool)

  /** `answered`: the provider was asked and did not fail. */
  datatype Outcome = Outcome(entries: Entries, reply: Reply<Snapshot, Error>, answered: bool)

  function Looked(ttl: int, e: Entries, s: Step): Outcome
    requires s.Look?
  {
    if GetFault in s.faults then Outcome(e, Err(Unavailable), false)
    else
      var held := Held(e, s.now);
      if s.id in held && Valid(held[s.id].snapshot, s.id) then Outcome(held, Ok(held[s.id].snapshot), false)
      else
        var e1 := if s.id in held && InvalidateFault !in s.faults then held - {s.id} else held;
        if FetchFault in s.faults then Outcome(e1, Err(Unavailable), false)
        else if !Valid(s.fetched, s.id) then Outcome(e1, Err(InvalidSnapshot), true)
        else if SetFault in s.faults then Outcome(e1, Err(Unavailable), true)
        else Outcome(e1[s.fetched.discourseId := Entry(s.fetched, s.now + Effective(0, ttl))], Ok(s.fetched), true)
  }

  /** CurrentLevelProgress for a subject: `lookup` carries the instant, the provider's answer and the failing calls. */
  method CurrentLevelProgress(users: U.UserRepository, cache: RedisLevelProgressCache, subject: string, lookup: Step)
    returns (r: Reply<Snapshot, Error>)
    requires lookup.Look? && (subject in users.bySubject ==> lookup.id == users.bySubject[subject].discourseId)
    modifies cache
    ensures subject !in users.bySubject ==> r == Err(UnknownUser) && cache.entries == old(cache.entries)
    ensures subject in users.bySubject ==>
              var o := Looked(cache.ttl, old(cache.entries), lookup);
              cache.entries == o.entries && r == o.reply
  {
    hide Valid;
    var user := users.GetBySubject(subject);
    if user.None? {
      return Err(UnknownUser);
    }
    var id := user.value.discourseId;
    if GetFault in lookup.faults {
      return Err(Unavailable);
    }
    var cached := cache.Get(id, lookup.now);
    if cached.Some? {
      var usable := ValidateFor(cached.value, id);
      if usable {
        return Ok(cached.value);
      }
      if InvalidateFault !in lookup.faults {
        cache.Invalidate(id);
      }
    }
    if FetchFault in lookup.faults {
      return Err(Unavailable);
    }
    var valid := ValidateFor(lookup.fetched, id);
    if !valid {
      return Err(InvalidSnapshot);
    }
    if SetFault in lookup.faults {
      return Err(Unavailable);
    }
    cache.Set(lookup.fetched, 0, lookup.now);
    r := Ok(lookup.fetched);
  }

  function Dropped(e: Entries, s: Step): Entries
    requires s.Drop?
  {
    if s.fails then e else e - {s.id}
  }

  /** A status event that is taken invalidates the user's entry; failing to do so does not fail the event. */
  method ServeEvent(users: U.UserRepository, cache: RedisLevelProgressCache, s: U.Step, invalidateFails: bool)
    returns (r: Option<U.Error>)
    requires s.op.Event?
    modifies users, cache
    ensures (users.Contents(), r) == U.EventServed(old(users.Contents()), s)
    ensures cache.entries ==
              if r.None? then Dropped(old(cache.entries), Drop(s.now, s.op.event.userId, invalidateFails))
                else old(cache.entries)
  {
    r := U.ServeEvent(users, s);
    if r.None? && !invalidateFails {
      cache.Invalidate(s.op.event.userId);
    }
  }

  // ---------------------------------------------------------------- agreement with the provider

  function Apply(ttl: int, e: Entries, s: Step): Entries {
    if s.Look? then Looked(ttl, e, s).entries else Dropped(e, s)
  }

  ghost predicate StepAt(ttl: int, states: seq<Entries>, steps: seq<Step>, i: int)
    requires 0 <= i < |steps| < |states|
  {
    states[i + 1] == Apply(ttl, states[i], steps[i])
  }

  /** States joined by steps at a clock that does not run backwards, from the empty cache. */
  ghost predicate ValidRun(ttl: int, states: seq<Entries>, steps: seq<Step>) {
    && |states| == |steps| + 1 && states[0] == map[]
    && (forall i :: 0 <= i < |steps| ==> StepAt(ttl, states, steps, i))
    && (forall i, j :: 0 <= i < j < |steps| ==> steps[i].now <= steps[j].now)
  }

  /**
   Step i asked the provider about this user and got this snapshot, which no successful invalidation before n concerns.
   */
  ghost predicate Origin(ttl: int, states: seq<Entries>, steps: seq<Step>, id: int, s: Snapshot, i: int, n: int) {
    && 0 <= i < |steps| && i < |states| && n <= |steps|
    && steps[i].Look? && steps[i].id == id && steps[i].fetched == s && Looked(ttl, states[i], steps[i]).answered
    && Valid(s, id)
    && forall k :: i < k < n && steps[k].Drop? && steps[k].id == id ==> steps[k].fails
  }

  lemma ValidNames(s: Snapshot, id: int)
    ensures Valid(s, id) ==> s.discourseId == id
  {
  }

  /** Every entry comes from the provider, lives for the lifetime from then on, and is valid for its user. */
  lemma {:induction false} EntryOrigin(ttl: int, states: seq<Entries>, steps: seq<Step>, n: nat, id: int)
    returns (i: nat)
    requires ValidRun(ttl, states, steps) && n < |states| && id in states[n]
    ensures i < n && Origin(ttl, states, steps, id, states[n][id].snapshot, i, n)
    ensures states[n][id].evictAt == steps[i].now + Effective(0, ttl)
  {
    hide Valid;
    var before, step := states[n - 1], steps[n - 1];
    assert StepAt(ttl, states, steps, n - 1);
    if step.Look? {
      ValidNames(step.fetched, step.id);
    }
    if step.Look? && step.id == id && Looked(ttl, before, step).answered && Looked(ttl, before, step).reply.Ok? {
      i := n - 1;
    } else {
      i := EntryOrigin(ttl, states, steps, n - 1, id);
    }
  }

  /** In every reachable state the cached snapshot is valid: a look-up never has to discard one. */
  lemma CachedAlwaysValid(ttl: int, states: seq<Entries>, steps: seq<Step>, n: nat, id: int)
    requires ValidRun(ttl, states, steps) && n < |states| && id in states[n]
    ensures Valid(states[n][id].snapshot, id)
  {
    var i := EntryOrigin(ttl, states, steps, n, id);
  }

  /**
   Whatever a look-up returns is valid for its user and is an answer the provider gave about that user less
   than the cache's lifetime earlier, with no successful invalidation in between.
   */
  lemma ReturnedIsRecent(ttl: int, states: seq<Entries>, steps: seq<Step>, j: nat) returns (i: nat)
    requires ValidRun(ttl, states, steps) && j < |steps| && steps[j].Look? && Looked(ttl, states[j], steps[j]).reply.Ok?
    ensures i <= j && Origin(ttl, states, steps, steps[j].id, Looked(ttl, states[j], steps[j]).reply.value, i, j)
    ensures 0 <= steps[j].now - steps[i].now < Effective(0, ttl)
  {
    hide Valid;
    if Looked(ttl, states[j], steps[j]).answered {
      i := j;
    } else {
      i := EntryOrigin(ttl, states, steps, j, steps[j].id);
    }
  }

  /** Step i fetched and stored a snapshot of this user that is still within its lifetime and was not dropped since. */
  ghost predicate Covers(ttl: int, states: seq<Entries>, steps: seq<Step>, i: int, n: nat, id: int, now: Time)
    requires n <= |steps| < |states|
  {
    && 0 <= i < n && StoredAt(ttl, states, steps, i, id) && now < steps[i].now + Effective(0, ttl)
    && forall k :: i < k < n ==> !DropsAt(steps, k, id)
  }

  ghost predicate StoredAt(ttl: int, states: seq<Entries>, steps: seq<Step>, i: int, id: int)
    requires 0 <= i < |steps| < |states|
  {
    && steps[i].Look? && steps[i].id == id
    && Looked(ttl, states[i], steps[i]).answered && Looked(ttl, states[i], steps[i]).reply.Ok?
  }

  ghost predicate DropsAt(steps: seq<Step>, k: int, id: int)
    requires 0 <= k < |steps|
  {
    steps[k].Drop? && steps[k].id == id && !steps[k].fails
  }

  lemma CoversStep(ttl: int, states: seq<Entries>, steps: seq<Step>, i: int, n: nat, id: int, now: Time)
    requires 0 < n <= |steps| < |states| && i < n - 1
    ensures Covers(ttl, states, steps, i, n, id, now)
            <==> Covers(ttl, states, steps, i, n - 1, id, now) && !DropsAt(steps, n - 1, id)
  {
    hide StoredAt, DropsAt;
  }

  ghost predicate Covered(ttl: int, states: seq<Entries>, steps: seq<Step>, n: nat, id: int, now: Time)
    requires n <= |steps| < |states|
  {
    exists i :: Covers(ttl, states, steps, i, n, id, now)
  }

  lemma CoveredStep(ttl: int, states: seq<Entries>, steps: seq<Step>, n: nat, id: int, now: Time)
    requires 0 < n <= |steps| < |states|
    ensures Covered(ttl, states, steps, n, id, now) <==>
              || (StoredAt(ttl, states, steps, n - 1, id) && now < steps[n - 1].now + Effective(0, ttl))
              || (Covered(ttl, states, steps, n - 1, id, now) && !DropsAt(steps, n - 1, id))
  {
    hide StoredAt, DropsAt;
    forall i | i < n - 1
      ensures Covers(ttl, states, steps, i, n, id, now)
              <==> Covers(ttl, states, steps, i, n - 1, id, now) && !DropsAt(steps, n - 1, id)
    {
      CoversStep(ttl, states, steps, i, n, id, now);
    }
    assert Covers(ttl, states, steps, n - 1, n, id, now) <==>
             StoredAt(ttl, states, steps, n - 1, id) && now < steps[n - 1].now + Effective(0, ttl);
    if Covered(ttl, states, steps, n, id, now) {
      var i :| Covers(ttl, states, steps, i, n, id, now);
    }
    if Covered(ttl, states, steps, n - 1, id, now) && !DropsAt(steps, n - 1, id) {
      var i :| Covers(ttl, states, steps, i, n - 1, id, now);
      assert Covers(ttl, states, steps, i, n, id, now);
    }
  }

  /** The user's entry outlives the instant. */
  predicate Outlives(e: Entries, id: int, now: Time) {
    id in e && now < e[id].evictAt
  }

  /** What one step does to the entry of a user that is valid if present. */
  lemma EntryStep(ttl: int, e: Entries, s: Step, id: int, now: Time)
    requires s.now <= now && (id in e ==> Valid(e[id].snapshot, id))
    ensures Outlives(Apply(ttl, e, s), id, now) <==>
              || (&& s.Look? && s.id == id && Looked(ttl, e, s).answered && Looked(ttl, e, s).reply.Ok?
                  && now < s.now + Effective(0, ttl))
              || (Outlives(e, id, now) && !(s.Drop? && s.id == id && !s.fails))
  {
    hide Valid;
    if s.Look? {
      ValidNames(s.fetched, s.id);
    }
  }

  /** The cache holds a user's snapshot at an instant exactly if some fetch of it still covers that instant. */
  lemma {:induction false} HeldExactly(ttl: int, states: seq<Entries>, steps: seq<Step>, n: nat, id: int, now: Time)
    requires ValidRun(ttl, states, steps) && n < |states| && (n > 0 ==> steps[n - 1].now <= now)
    ensures Outlives(states[n], id, now) <==> Covered(ttl, states, steps, n, id, now)
  {
    if n == 0 {
      assert forall i :: !Covers(ttl, states, steps, i, 0, id, now);
    } else {
      assert StepAt(ttl, states, steps, n - 1) && (n > 1 ==> steps[n - 2].now <= steps[n - 1].now);
      hide Valid, Looked, Covered, Covers, Outlives, ValidRun, Apply;
      if id in states[n - 1] {
        CachedAlwaysValid(ttl, states, steps, n - 1, id);
      }
      HeldExactly(ttl, states, steps, n - 1, id, now);
      EntryStep(ttl, states[n - 1], steps[n - 1], id, now);
      CoveredStep(ttl, states, steps, n, id, now);
    }
  }

  /**
   In every run a look-up succeeds exactly if the cache can be read and either an earlier fetch still covers it, or the
   provider answers with a valid snapshot and that can be stored; the provider is asked only in the second case.
   */
  lemma LookExactly(ttl: int, states: seq<Entries>, steps: seq<Step>, j: nat)
    requires ValidRun(ttl, states, steps) && j < |steps| && steps[j].Look?
    ensures var s, o := steps[j], Looked(ttl, states[j], steps[j]);
            var covered := Covered(ttl, states, steps, j, s.id, s.now);
            && (o.reply.Ok? <==>
                  && GetFault !in s.faults
                  && (covered || (FetchFault !in s.faults && Valid(s.fetched, s.id) && SetFault !in s.faults)))
            && (o.answered <==> GetFault !in s.faults && !covered && FetchFault !in s.faults)
            && (o.answered && o.reply.Ok? ==> o.reply.value == s.fetched)
  {
    hide Valid;
    HeldExactly(ttl, states, steps, j, steps[j].id, steps[j].now) by {
      assert j > 0 ==> steps[j - 1].now <= steps[j].now;
    }
    if steps[j].id in states[j] {
      CachedAlwaysValid(ttl, states, steps, j, steps[j].id);
    }
    hide Covered;
  }
}
