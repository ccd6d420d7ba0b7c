/** The mapping between Connect subjects and Discourse identifiers (internal/store/memory, internal/identity). */
module Users {
  import opened Common

  type Subject = string

  datatype Profile = Profile(
    username: string, name: string, email: string, avatarUrl: string, trustLevel: int,
    active: bool, silenced: bool, suspended: bool, reviewer: bool, admin: bool)

  datatype User = User(subject: Subject, discourseId: int, profile: Profile, createdAt: Time, updatedAt: Time)

  /** What the identity bridge says about a user; it may leave the subject out. */
  datatype Snapshot = Snapshot(subject: Subject, discourseId: int, profile: Profile)

  predicate CanAuthenticate(p: Profile) {
    p.active && !p.suspended
  }

  const NO_PROFILE := Profile("", "", "", "", 0, false, false, false, false, false)
  const ZERO_USER := User("", 0, NO_PROFILE, ZERO_TIME, ZERO_TIME)

  datatype Error = Unavailable | NotFound | InvalidIdentity | IdentityMismatch | InvalidEvent | Replay

  datatype Index = Index(bySubject: map<Subject, User>, byDiscourse: map<int, Subject>)

  function Upserted(ix: Index, u: User): Index {
    Index(ix.bySubject[u.subject := u], ix.byDiscourse[u.discourseId := u.subject])
  }

  function BySubject(ix: Index, subject: Subject): Option<User> {
    if subject in ix.bySubject then Some(ix.bySubject[subject]) else None
  }

  /** A Discourse identifier whose subject has no record yields the zero user. */
  function ByDiscourse(ix: Index, id: int): Option<User> {
    if id !in ix.byDiscourse then None
    else if ix.byDiscourse[id] in ix.bySubject then Some(ix.bySubject[ix.byDiscourse[id]])
    else Some(ZERO_USER)
  }

  class UserRepository {
    var bySubject: map<Subject, User>
    var byDiscourse: map<int, Subject>

    ghost function Contents(): Index
      reads this
    {
      Index(bySubject, byDiscourse)
    }

    constructor ()
      ensures Contents() == Index(map[], map[])
    {
      bySubject, byDiscourse := map[], map[];
    }

    method Upsert(user: User)
      modifies this
      ensures Contents() == Upserted(old(Contents()), user)
      ensures bySubject == old(bySubject)[user.subject := user]
      ensures byDiscourse == old(byDiscourse)[user.discourseId := user.subject]
    {
      bySubject := bySubject[user.subject := user];
      byDiscourse := byDiscourse[user.discourseId := user.subject];
    }

    method GetBySubject(subject: Subject) returns (r: Option<User>)
      ensures r == BySubject(Contents(), subject)
    {
      r := if subject in bySubject then Some(bySubject[subject]) else None;
    }

    method GetByDiscourseID(id: int) returns (r: Option<User>)
      ensures r == ByDiscourse(Contents(), id)
    {
      if id !in byDiscourse {
        return None;
      }
      var subject := byDiscourse[id];
      r := Some(if subject in bySubject then bySubject[subject] else ZERO_USER);
    }
  }

  // ---------------------------------------------------------------- the three writers

  /** Dependency calls that fail during a step, without effect. */
  datatype Fault = LookupFault | FetchFault | RandomFault | UpsertFault | EventStoreFault

  datatype StatusEvent = StatusEvent(eventId: string, userId: int, isStatusChange: bool, status: Snapshot)

  const MAX_EVENT_ID := 128

  /**
   Each writer with the outside answers it gets: the bridge's snapshot, a drawn subject, whether the event ID is new.
   */
  datatype Op =
    | Ensure(discourseId: int, fetched: Snapshot, drawn: Subject)
    | Refresh(subject: Subject, fetched: Snapshot)
    | Event(event: StatusEvent, eventIsNew: bool)

  datatype Step = Step(now: Time, faults: set<Fault>, op: Op)

  function Ensured(ix: Index, s: Step): (Index, Reply<User, Error>)
    requires s.op.Ensure?
  {
    var snapshot, id := s.op.fetched, s.op.discourseId;
    if id <= 0 then (ix, Err(Unavailable))
    else if FetchFault in s.faults then (ix, Err(Unavailable))
    else if snapshot.discourseId != id || Blank(snapshot.profile.username) then (ix, Err(InvalidIdentity))
    else if LookupFault in s.faults then (ix, Err(Unavailable))
    else
      var known := ByDiscourse(ix, id);
      if known.None? && RandomFault in s.faults then (ix, Err(Unavailable))
      else
        var user := if known.Some? then known.value else User(s.op.drawn, id, NO_PROFILE, s.now, ZERO_TIME);
        if snapshot.subject != "" && snapshot.subject != user.subject then (ix, Err(IdentityMismatch))
        else
          var seen := User(user.subject, snapshot.discourseId, snapshot.profile,
                           if user.createdAt == ZERO_TIME then s.now else user.createdAt, s.now);
          if UpsertFault in s.faults then (ix, Err(Unavailable)) else (Upserted(ix, seen), Ok(seen))
  }

  function Refreshed(ix: Index, s: Step): (Index, Reply<Snapshot, Error>)
    requires s.op.Refresh?
  {
    var subject, snapshot := s.op.subject, s.op.fetched;
    if LookupFault in s.faults then (ix, Err(Unavailable))
    else
      var user := BySubject(ix, subject);
      if user.None? then (ix, Err(NotFound))
      else if FetchFault in s.faults then (ix, Err(Unavailable))
      else if (snapshot.subject != "" && snapshot.subject != subject) || snapshot.discourseId != user.value.discourseId
      then (ix, Err(IdentityMismatch))
      else
        var stable := if snapshot.subject != "" then snapshot.subject else subject;
        if UpsertFault in s.faults then (ix, Err(Unavailable))
        else
          (Upserted(ix, User(stable, snapshot.discourseId, snapshot.profile, user.value.createdAt, s.now)),
           Ok(Snapshot(stable, snapshot.discourseId, snapshot.profile)))
  }

  function EventServed(ix: Index, s: Step): (Index, Option<Error>)
    requires s.op.Event?
  {
    var event := s.op.event;
    if event.eventId == "" || |event.eventId| > MAX_EVENT_ID || event.userId <= 0 || !event.isStatusChange
       || event.status.discourseId != event.userId
    then (ix, Some(InvalidEvent))
    else if EventStoreFault in s.faults then (ix, Some(Unavailable))
    else if !s.op.eventIsNew then (ix, Some(Replay))
    else
      var user := if LookupFault in s.faults then None else ByDiscourse(ix, event.userId);
      if user.None? then (ix, Some(NotFound))
      else if event.status.subject != "" && event.status.subject != user.value.subject then (ix, Some(IdentityMismatch))
      else if UpsertFault in s.faults then (ix, Some(Unavailable))
      else (Upserted(ix, User(user.value.subject, user.value.discourseId, event.status.profile, user.value.createdAt,
                              s.now)), None)
  }

  function Apply(ix: Index, s: Step): Index {
    match s.op
    case Ensure(_, _, _) => Ensured(ix, s).0
    case Refresh(_, _) => Refreshed(ix, s).0
    case Event(_, _) => EventServed(ix, s).0
  }

  method EnsureShadowUser(users: UserRepository, s: Step) returns (r: Reply<User, Error>)
    requires s.op.Ensure?
    modifies users
    ensures (users.Contents(), r) == Ensured(old(users.Contents()), s)
  {
    var snapshot, id := s.op.fetched, s.op.discourseId;
    if id <= 0 || FetchFault in s.faults {
      return Err(Unavailable);
    }
    if snapshot.discourseId != id || Blank(snapshot.profile.username) {
      return Err(InvalidIdentity);
    }
    if LookupFault in s.faults {
      return Err(Unavailable);
    }
    var known := users.GetByDiscourseID(id);
    var user: User;
    if known.None? {
      if RandomFault in s.faults {
        return Err(Unavailable);
      }
      user := User(s.op.drawn, id, NO_PROFILE, s.now, ZERO_TIME);
    } else {
      user := known.value;
    }
    if snapshot.subject != "" && snapshot.subject != user.subject {
      return Err(IdentityMismatch);
    }
    user := user.(discourseId := snapshot.discourseId, profile := snapshot.profile, updatedAt := s.now);
    if user.createdAt == ZERO_TIME {
      user := user.(createdAt := s.now);
    }
    if UpsertFault in s.faults {
      return Err(Unavailable);
    }
    users.Upsert(user);
    r := Ok(user);
  }

  method CurrentStatus(users: UserRepository, s: Step) returns (r: Reply<Snapshot, Error>)
    requires s.op.Refresh?
    modifies users
    ensures (users.Contents(), r) == Refreshed(old(users.Contents()), s)
  {
    if LookupFault in s.faults {
      return Err(Unavailable);
    }
    var subject, snapshot := s.op.subject, s.op.fetched;
    var user := users.GetBySubject(subject);
    if user.None? {
      return Err(NotFound);
    }
    if FetchFault in s.faults {
      return Err(Unavailable);
    }
    if (snapshot.subject != "" && snapshot.subject != subject) || snapshot.discourseId != user.value.discourseId {
      return Err(IdentityMismatch);
    }
    var stable := subject;
    if snapshot.subject != "" {
      stable := snapshot.subject;
    }
    if UpsertFault in s.faults {
      return Err(Unavailable);
    }
    users.Upsert(User(stable, snapshot.discourseId, snapshot.profile, user.value.createdAt, s.now));
    r := Ok(Snapshot(stable, snapshot.discourseId, snapshot.profile));
  }

  method ServeEvent(users: UserRepository, s: Step) returns (r: Option<Error>)
    requires s.op.Event?
    modifies users
    ensures (users.Contents(), r) == EventServed(old(users.Contents()), s)
  {
    var event := s.op.event;
    if event.eventId == "" || |event.eventId| > MAX_EVENT_ID || event.userId <= 0 || !event.isStatusChange
       || event.status.discourseId != event.userId {
      return Some(InvalidEvent);
    }
    if EventStoreFault in s.faults {
      return Some(Unavailable);
    }
    if !s.op.eventIsNew {
      return Some(Replay);
    }
    if LookupFault in s.faults {
      return Some(NotFound);
    }
    var user := users.GetByDiscourseID(event.userId);
    if user.None? {
      return Some(NotFound);
    }
    if event.status.subject != "" && event.status.subject != user.value.subject {
      return Some(IdentityMismatch);
    }
    if UpsertFault in s.faults {
      return Some(Unavailable);
    }
    users.Upsert(User(user.value.subject, user.value.discourseId, event.status.profile, user.value.createdAt, s.now));
    r := None;
  }

  // ---------------------------------------------------------------- the two maps stay inverse

  /** Subjects and Discourse identifiers are in one-to-one correspondence, and every record is dated. */
  ghost predicate Inverse(ix: Index) {
    && (forall d :: d in ix.byDiscourse ==>
                      ix.byDiscourse[d] in ix.bySubject && ix.bySubject[ix.byDiscourse[d]].discourseId == d)
    && (forall s :: s in ix.bySubject ==>
                      && ix.bySubject[s].subject == s && ix.bySubject[s].createdAt != ZERO_TIME
                      && ix.bySubject[s].discourseId in ix.byDiscourse
                         && ix.byDiscourse[ix.bySubject[s].discourseId] == s)
  }

  /** The record's subject and Discourse identifier are both new, or already belong to each other. */
  predicate Fits(ix: Index, u: User) {
    && (u.subject in ix.bySubject ==> ix.bySubject[u.subject].discourseId == u.discourseId)
    && (u.discourseId in ix.byDiscourse ==> ix.byDiscourse[u.discourseId] == u.subject)
  }

  /** Upsert by itself keeps the two maps inverse exactly for the records that fit. */
  lemma UpsertKeepsExactly(ix: Index, u: User)
    requires Inverse(ix) && u.createdAt != ZERO_TIME
    ensures Inverse(Upserted(ix, u)) <==> Fits(ix, u)
  {
    var ix' := Upserted(ix, u);
    if !Fits(ix, u) {
      if u.subject in ix.bySubject && ix.bySubject[u.subject].discourseId != u.discourseId {
        var d := ix.bySubject[u.subject].discourseId;
        assert ix'.byDiscourse[d] == u.subject && ix'.bySubject[u.subject].discourseId != d;
      } else {
        var s := ix.byDiscourse[u.discourseId];
        assert ix'.bySubject[s].discourseId == u.discourseId && ix'.byDiscourse[u.discourseId] != s;
      }
    }
  }

  /** Re-mapping a Discourse identifier to a second subject breaks the correspondence. */
  lemma UpsertAloneBreaks()
    ensures var ix := Upserted(Index(map[], map[]), User("a", 1, NO_PROFILE, 1, 1));
            Inverse(ix) && !Inverse(Upserted(ix, User("b", 1, NO_PROFILE, 1, 1)))
  {
    var ix := Upserted(Index(map[], map[]), User("a", 1, NO_PROFILE, 1, 1));
    var u := User("b", 1, NO_PROFILE, 1, 1);
    assert "b" != "a";
    assert ix.byDiscourse[1] == "a";
    UpsertKeepsExactly(ix, u);
  }

  /** What the environment guarantees: the clock is past the zero instant and drawn subjects are new and not empty. */
  predicate Allowed(ix: Index, s: Step) {
    && s.now > ZERO_TIME
    && (s.op.Ensure? ==> s.op.drawn != "" && s.op.drawn !in ix.bySubject)
  }

  /** Every step stores nothing, or one record that fits and keeps the date of the record it replaces. */
  lemma WritesFit(ix: Index, s: Step) returns (u: Option<User>)
    requires Inverse(ix) && Allowed(ix, s)
    ensures u.None? ==> Apply(ix, s) == ix
    ensures u.Some? ==>
              && Apply(ix, s) == Upserted(ix, u.value) && Fits(ix, u.value) && u.value.createdAt != ZERO_TIME
              && u.value.updatedAt == s.now
              && (u.value.subject in ix.bySubject ==> u.value.createdAt == ix.bySubject[u.value.subject].createdAt)
  {
    hide Blank;
    var ix' := Apply(ix, s);
    match s.op {
      case Ensure(id, _, _) =>
        var r := Ensured(ix, s).1;
        u := if r.Ok? then Some(r.value) else None;
      case Refresh(subject, _) =>
        u := if Refreshed(ix, s).1.Ok? then Some(ix'.bySubject[subject]) else None;
      case Event(event, _) =>
        u := if EventServed(ix, s).1.None? then Some(ix'.bySubject[ix.byDiscourse[event.userId]]) else None;
    }
  }

  /**
   A Discourse identifier, once mapped, keeps its subject and creation date through any step, and the maps stay
   inverse.
   */
  lemma StepKeeps(ix: Index, s: Step)
    requires Inverse(ix) && Allowed(ix, s)
    ensures Inverse(Apply(ix, s)) && Extends(ix, Apply(ix, s))
  {
    var u := WritesFit(ix, s);
    hide Apply;
    if u.Some? {
      UpsertKeepsExactly(ix, u.value);
    }
  }

  /** A step that answers with success leaves the user with the profile the bridge sent, and no one else touched. */
  lemma ProfileFollowsBridge(ix: Index, s: Step)
    requires Inverse(ix) && Allowed(ix, s) && !s.op.Event?
    ensures var id := s.op.fetched.discourseId;
            (if s.op.Ensure? then Ensured(ix, s).1.Ok? else Refreshed(ix, s).1.Ok?) ==>
              && ByDiscourse(Apply(ix, s), id).Some? && ByDiscourse(Apply(ix, s), id).value.profile
                 == s.op.fetched.profile
              && (s.op.Refresh? ==> Refreshed(ix, s).1.value == s.op.fetched.(subject := s.op.subject))
              && forall t :: t in ix.bySubject && ix.bySubject[t].discourseId != id ==>
                               BySubject(Apply(ix, s), t) == Some(ix.bySubject[t])
  {
    hide Blank;
  }

  // ---------------------------------------------------------------- what each writer answers and stores

  /** The record of a user that the Discourse identifier is mapped to, if it is. */
  function Mapped(ix: Index, id: int): Option<User>
    requires Inverse(ix)
  {
    if id in ix.byDiscourse then Some(ix.bySubject[ix.byDiscourse[id]]) else None
  }

  /** The index with this user's record replaced and its Discourse identifier mapped to it. */
  predicate Stores(ix: Index, ix': Index, u: User) {
    ix'.bySubject == ix.bySubject[u.subject := u] && ix'.byDiscourse == ix.byDiscourse[u.discourseId := u.subject]
  }

  /** A login goes through exactly for the user asked about, named, and not claimed by another subject. */
  lemma EnsureExactly(ix: Index, s: Step)
    requires Inverse(ix) && s.op.Ensure?
    ensures var (ix', r) := Ensured(ix, s);
            var snapshot, id, known := s.op.fetched, s.op.discourseId, Mapped(ix, s.op.discourseId);
            var subject := if known.Some? then known.value.subject else s.op.drawn;
            var created := if known.Some? then known.value.createdAt else s.now;
            var user := User(subject, id, snapshot.profile, created, s.now);
            if && id > 0 && FetchFault !in s.faults && snapshot.discourseId == id && !Blank(snapshot.profile.username)
               && LookupFault !in s.faults && (known.None? ==> RandomFault !in s.faults)
               && (snapshot.subject == "" || snapshot.subject == subject) && UpsertFault !in s.faults
            then r == Ok(user) && Stores(ix, ix', user)
            else r.Err? && ix' == ix
  {
    hide Blank;
  }

  /** A refresh goes through exactly for a known subject whose Discourse identifier the bridge confirms. */
  lemma RefreshExactly(ix: Index, s: Step)
    requires Inverse(ix) && s.op.Refresh?
    ensures var (ix', r) := Refreshed(ix, s);
            var snapshot, subject := s.op.fetched, s.op.subject;
            if && LookupFault !in s.faults && FetchFault !in s.faults && UpsertFault !in s.faults
               && subject in ix.bySubject && snapshot.discourseId == ix.bySubject[subject].discourseId
               && (snapshot.subject == "" || snapshot.subject == subject)
            then
              && r == Ok(Snapshot(subject, snapshot.discourseId, snapshot.profile))
              && Stores(ix, ix', User(subject, snapshot.discourseId, snapshot.profile,
                                      ix.bySubject[subject].createdAt, s.now))
            else r.Err? && ix' == ix
  {
  }

  /**
   A status event is taken exactly if it is well formed, new, and about a known user; the record then shows its
   profile.
   */
  lemma EventExactly(ix: Index, s: Step)
    requires Inverse(ix) && s.op.Event?
    ensures var (ix', r) := EventServed(ix, s);
            var event, known := s.op.event, Mapped(ix, s.op.event.userId);
            if && 1 <= |event.eventId| <= 128 && event.userId > 0 && event.isStatusChange
               && event.status.discourseId == event.userId && EventStoreFault !in s.faults && s.op.eventIsNew
               && LookupFault !in s.faults && known.Some?
               && (event.status.subject == "" || event.status.subject == known.value.subject)
               && UpsertFault !in s.faults
            then
              && r == None
              && Stores(ix, ix', User(known.value.subject, event.userId, event.status.profile, known.value.createdAt,
                                      s.now))
            else r.Some? && ix' == ix
  {
  }

  ghost predicate Extends(ix: Index, later: Index) {
    forall d :: d in ix.byDiscourse && ix.byDiscourse[d] in ix.bySubject ==>
                  && d in later.byDiscourse && later.byDiscourse[d] == ix.byDiscourse[d]
                  && later.byDiscourse[d] in later.bySubject
                  && later.bySubject[later.byDiscourse[d]].createdAt == ix.bySubject[ix.byDiscourse[d]].createdAt
  }

  /** States joined by allowed steps of the three writers, from the empty index. */
  ghost predicate ValidRun(states: seq<Index>, steps: seq<Step>) {
    && |states| == |steps| + 1 && states[0] == Index(map[], map[])
    && forall i :: 0 <= i < |steps| ==> StepAt(states, steps, i)
  }

  ghost predicate StepAt(states: seq<Index>, steps: seq<Step>, i: int)
    requires 0 <= i < |steps| < |states|
  {
    Allowed(states[i], steps[i]) && states[i + 1] == Apply(states[i], steps[i])
  }

  lemma {:induction false} RunInverse(states: seq<Index>, steps: seq<Step>, i: nat)
    requires ValidRun(states, steps) && i < |states|
    ensures Inverse(states[i])
  {
    if i > 0 {
      hide Inverse, Apply, Allowed;
      RunInverse(states, steps, i - 1);
      assert StepAt(states, steps, i - 1);
      StepKeeps(states[i - 1], steps[i - 1]);
    }
  }

  lemma ExtendsTrans(a: Index, b: Index, c: Index)
    requires Extends(a, b) && Extends(b, c)
    ensures Extends(a, c)
  {
  }

  /** In any run, whatever is mapped at one point keeps its subject and creation date at every later point. */
  lemma {:induction false} MappingStable(states: seq<Index>, steps: seq<Step>, i: nat, j: nat)
    requires ValidRun(states, steps) && i <= j < |states|
    ensures Inverse(states[j]) && Extends(states[i], states[j])
  {
    hide Inverse, Apply, Allowed;
    RunInverse(states, steps, j);
    if i < j {
      hide Extends;
      MappingStable(states, steps, i, j - 1);
      assert StepAt(states, steps, j - 1);
      StepKeeps(states[j - 1], steps[j - 1]);
      ExtendsTrans(states[i], states[j - 1], states[j]);
    }
  }
}
