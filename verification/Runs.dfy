/** What holds in every run of the whole system, whichever dependencies fail and wherever. */
module Runs {
  import opened Common
  import opened Domain
  import opened Repositories
  import opened Protocol
  import opened Lifecycle
  import opened Invariant
  import opened Steps

  // ---------------------------------------------------------------- what every step keeps

  lemma StepRecords(cfg: Config, st: State, step: Step)
    requires Base(st) && Allowed(st, step)
    ensures RecordsOk(Apply(cfg, st, step).store.apps, Apply(cfg, st, step).issued)
  {
    var st' := Apply(cfg, st, step);
    forall a | a in st'.store.apps ensures a in st'.issued && RecordOk(a, st'.store.apps[a]) {
      hide Apply;
      assert a in st.store.apps ==> RecordOk(a, st.store.apps[a]);
      AppStep(cfg, st, step, a);
    }
  }

  lemma IssuedKept(cfg: Config, st: State, step: Step)
    requires Allowed(st, step)
    ensures st.issued <= Apply(cfg, st, step).issued
    ensures step.op.CreateDraft? ==> step.op.id in Apply(cfg, st, step).issued
    ensures Apply(cfg, st, step).clock == step.env.now
    ensures !step.op.RunOnce? ==> Apply(cfg, st, step).cache == st.cache
  {
  }

  lemma StepIndexed(cfg: Config, st: State, step: Step)
    requires Base(st) && Allowed(st, step)
    ensures Indexed(Apply(cfg, st, step).store.outbox, Apply(cfg, st, step).issued)
  {
    hide Base, Apply, RecordsOk, WorkFits, CacheOwned, NamesApart, NoOrphans;
    IssuedKept(cfg, st, step);
    Parts(st);
    var o, st' := st.store.outbox, Apply(cfg, st, step);
    EventStep(cfg, st, step, "");
    if step.op.RunOnce? {
      PassIndexed(cfg, st, step);
    } else {
      MoreIssued(o, st.issued, st'.issued);
      if st'.store.outbox != o {
        if step.op.id in st.store.apps {
          Known(st, step.op.id);
        }
        hide Indexed;
        EnqueuedIndexed(o, st'.issued, step.op.id, step.op.eventId, step.env.now);
      }
    }
  }

  lemma MoreIssued(o: Outbox, issued: set<AppId>, issued': set<AppId>)
    requires Indexed(o, issued) && issued <= issued'
    ensures Indexed(o, issued')
  {
    forall e | e in o.events ensures EventOk(o, issued', e) {
      assert EventOk(o, issued, e);
    }
  }

  /** A pass changes neither the key index nor what an event is about. */
  lemma PassIndexed(cfg: Config, st: State, step: Step)
    requires Base(st) && Allowed(st, step) && step.op.RunOnce?
    ensures Indexed(Apply(cfg, st, step).store.outbox, Apply(cfg, st, step).issued)
  {
    hide Base, Apply, RecordsOk, WorkFits, CacheOwned, NamesApart, NoOrphans;
    IssuedKept(cfg, st, step);
    Parts(st);
    var o, st' := st.store.outbox, Apply(cfg, st, step);
    var o' := st'.store.outbox;
    EventStep(cfg, st, step, "");
    forall e | e in o'.events ensures EventOk(o', st'.issued, e) {
      EventStep(cfg, st, step, e);
      assert EventOk(o, st.issued, e);
    }
    forall k | k in o'.byKey ensures o'.byKey[k] in o'.events && o'.events[o'.byKey[k]].key == k {
      EventStep(cfg, st, step, o.byKey[k]);
    }
  }

  lemma OpWork(cfg: Config, st: State, step: Step, a: AppId)
    requires Base(st) && Allowed(st, step) && !step.op.RunOnce? && a in Apply(cfg, st, step).store.apps
    ensures EventFits(Apply(cfg, st, step).store.outbox, a, Apply(cfg, st, step).store.apps[a].status)
  {
    hide Base, Apply, RecordsOk, Indexed, CacheOwned, WorkFits, NamesApart, NoOrphans;
    Parts(st);
    var o := st.store.outbox;
    AppStep(cfg, st, step, a);
    EventStep(cfg, st, step, if Queued(o, a) then o.byKey[ProvisionKey(a)] else "");
    if a in st.store.apps {
      Known(st, a);
    } else {
      NotIssued(st, a);
    }
  }

  lemma PassWork(cfg: Config, st: State, step: Step, a: AppId)
    requires Base(st) && Allowed(st, step) && step.op.RunOnce? && a in Apply(cfg, st, step).store.apps
    ensures EventFits(Apply(cfg, st, step).store.outbox, a, Apply(cfg, st, step).store.apps[a].status)
  {
    hide Base, Apply, RecordsOk, Indexed, CacheOwned, WorkFits, NamesApart, NoOrphans;
    Parts(st);
    if PassClaims(st, step) {
      var o := st.store.outbox;
      PassShape(cfg, st, step);
      KnownEvent(st, step.op.choice.value);
      Known(st, a);
      if Queued(o, a) {
        EventStep(cfg, st, step, o.byKey[ProvisionKey(a)]);
        KnownEvent(st, o.byKey[ProvisionKey(a)]);
      }
    } else {
      PassIdle(cfg, st, step);
      Known(st, a);
    }
  }

  /** A pass that claims no event changes no store. */
  lemma PassIdle(cfg: Config, st: State, step: Step)
    requires Base(st) && Allowed(st, step) && step.op.RunOnce? && !PassClaims(st, step)
    ensures Apply(cfg, st, step).store == st.store && Apply(cfg, st, step).cache == st.cache
    ensures Apply(cfg, st, step).issued == st.issued && st.granted <= Apply(cfg, st, step).granted
  {
    if step.op.choice.Some? {
      KnownEvent(st, step.op.choice.value);
    }
  }

  lemma StepWork(cfg: Config, st: State, step: Step)
    requires Base(st) && Allowed(st, step)
    ensures WorkFits(Apply(cfg, st, step).store.apps, Apply(cfg, st, step).store.outbox)
  {
    hide Base, EventFits;
    var st' := Apply(cfg, st, step);
    forall a | a in st'.store.apps ensures EventFits(st'.store.outbox, a, st'.store.apps[a].status) {
      if step.op.RunOnce? {
        PassWork(cfg, st, step, a);
      } else {
        OpWork(cfg, st, step, a);
      }
    }
  }

  lemma StepCache(cfg: Config, st: State, step: Step)
    requires Base(st) && Allowed(st, step)
    ensures CacheOwned(Apply(cfg, st, step))
  {
    hide Base, Apply, RecordsOk, Indexed, WorkFits, NamesApart, NoOrphans;
    Parts(st);
    var st' := Apply(cfg, st, step);
    IssuedKept(cfg, st, step);
    EventStep(cfg, st, step, "");
    forall a | a in st'.cache
      ensures a in st'.store.apps && st'.store.apps[a].status.Provisioning? && Queued(st'.store.outbox, a)
    {
      if step.op.RunOnce? {
        CacheStep(cfg, st, step, a);
        if a !in st.cache {
          KnownEvent(st, step.op.choice.value);
        }
      } else {
        AppStep(cfg, st, step, a);
      }
    }
  }

  // ---------------------------------------------------------------- clients in every run

  /** A call other than a pass names no new client, and gives one up only with its live client. */
  lemma OpNames(cfg: Config, st: State, step: Step, a: AppId)
    requires Base(st) && Allowed(st, step) && !step.op.RunOnce?
    ensures var st' := Apply(cfg, st, step);
            && st'.granted == st.granted
            && (Names(st', a).Some? ==>
                  Names(st', a) == Names(st, a))
            && (Holds(st, a).Some? && Holds(st', a) != Holds(st, a) ==>
                  Holds(st, a).value !in st'.store.live)
  {
    assert Apply(cfg, st, step).granted == st.granted;
    hide Base, Apply, RecordsOk, Indexed, WorkFits, NamesApart, NoOrphans;
    Parts(st);
    AppStep(cfg, st, step, a);
    OpTouches(cfg, st, step);
    IssuedKept(cfg, st, step);
    if a in st.store.apps {
      Known(st, a);
    } else {
      assert a !in st.cache;
    }
  }

  /** A pass gives its application the new client, if it creates one, and changes nothing else about who names what. */
  lemma PassNames(cfg: Config, st: State, step: Step, a: AppId)
    requires Base(st) && Allowed(st, step) && PassClaims(st, step)
    ensures var st' := Apply(cfg, st, step);
            && Names(st', a) ==
               (if CreatesClient(st, step, a) then Some(step.op.grant.id) else Names(st, a))
            && Holds(st', a) ==
               (if CreatesClient(st, step, a) then Some(step.op.grant.id) else Holds(st, a))
            && (CreatesClient(st, step, a) ==> Names(st, a).None?)
  {
    hide Base, Apply, RecordsOk, Indexed, WorkFits, NamesApart, NoOrphans;
    Parts(st);
    PassShape(cfg, st, step);
    KnownEvent(st, step.op.choice.value);
    if a in st.store.apps {
      Known(st, a);
    } else {
      assert a !in st.cache;
    }
  }

  lemma StepNames(cfg: Config, st: State, step: Step)
    requires Base(st) && Allowed(st, step)
    ensures NamesApart(Apply(cfg, st, step))
  {
    hide Base, Apply, Names;
    var st' := Apply(cfg, st, step);
    Parts(st);
    if !step.op.RunOnce? {
      forall a: AppId
        ensures st'.granted == st.granted && (Names(st', a).Some? ==> Names(st', a) == Names(st, a))
      {
        OpNames(cfg, st, step, a);
      }
    } else if PassClaims(st, step) {
      PassShape(cfg, st, step);
      forall a: AppId ensures Names(st', a) == if CreatesClient(st, step, a) then Some(step.op.grant.id)
        else Names(st, a) {
        PassNames(cfg, st, step, a);
      }
    } else {
      PassIdle(cfg, st, step);
      forall a: AppId ensures Names(st', a) == Names(st, a) {
        SameNames(st, st', a);
      }
    }
  }

  lemma SameNames(st: State, st': State, a: AppId)
    requires st'.store.apps == st.store.apps && st'.cache == st.cache
    ensures Names(st', a) == Names(st, a) && Holds(st', a) == Holds(st, a)
  {
  }

  /** Who answers for a live client after the step. */
  lemma HolderAfter(cfg: Config, st: State, step: Step, c: ClientId) returns (a: AppId)
    requires Base(st) && Allowed(st, step) && c in Apply(cfg, st, step).store.live
    ensures c in Apply(cfg, st, step).granted && Holds(Apply(cfg, st, step), a) == Some(c)
  {
    hide Base, Apply, RecordsOk, Indexed, WorkFits, CacheOwned, NamesApart, Holds, Names;
    Parts(st);
    if !step.op.RunOnce? {
      OpTouches(cfg, st, step);
      a :| Holds(st, a) == Some(c);
      OpNames(cfg, st, step, a);
    } else if PassClaims(st, step) {
      PassShape(cfg, st, step);
      if c in st.store.live {
        a :| Holds(st, a) == Some(c);
        PassNames(cfg, st, step, a);
        NamesHeld(st, a);
      } else {
        a := PassApp(st, step);
        PassNames(cfg, st, step, a);
      }
    } else {
      PassIdle(cfg, st, step);
      a :| Holds(st, a) == Some(c);
      SameNames(st, Apply(cfg, st, step), a);
    }
  }

  lemma NamesHeld(st: State, a: AppId)
    ensures Holds(st, a).Some? ==> Names(st, a) == Holds(st, a)
  {
  }

  lemma StepOrphans(cfg: Config, st: State, step: Step)
    requires Base(st) && Allowed(st, step)
    ensures NoOrphans(Apply(cfg, st, step))
  {
    hide Base, Apply, Holds;
    var st' := Apply(cfg, st, step);
    forall c | c in st'.store.live ensures c in st'.granted && exists a :: Holds(st', a) == Some(c) {
      var a := HolderAfter(cfg, st, step, c);
    }
  }

  lemma StepBase(cfg: Config, st: State, step: Step)
    requires Base(st) && Allowed(st, step)
    ensures Base(Apply(cfg, st, step))
  {
    StepRecords(cfg, st, step);
    StepIndexed(cfg, st, step);
    StepWork(cfg, st, step);
    StepCache(cfg, st, step);
    StepNames(cfg, st, step);
    StepOrphans(cfg, st, step);
    hide Apply, RecordsOk, Indexed, WorkFits, CacheOwned, NamesApart, NoOrphans;
  }

  lemma {:induction false} RunBase(cfg: Config, r: Run, i: nat)
    requires ValidRun(cfg, r) && i < |r.states|
    ensures Base(r.states[i])
  {
    if i > 0 {
      RunBase(cfg, r, i - 1);
      assert StepAt(cfg, r, i - 1);
      StepBase(cfg, r.states[i - 1], r.steps[i - 1]);
    }
  }

  /** One step of a run, with what is known before it. */
  lemma At(cfg: Config, r: Run, i: nat)
    requires ValidRun(cfg, r) && i < |r.steps|
    ensures Base(r.states[i]) && Allowed(r.states[i], r.steps[i])
            && r.states[i + 1] == Apply(cfg, r.states[i], r.steps[i])
  {
    RunBase(cfg, r, i);
    assert StepAt(cfg, r, i);
  }

  // ---------------------------------------------------------------- lifecycle

  ghost predicate Stored(r: Run, i: nat, a: AppId)
    requires i < |r.states|
  {
    a in r.states[i].store.apps
  }

  function StatusAt(r: Run, i: nat, a: AppId): Status
    requires i < |r.states| && a in r.states[i].store.apps
  {
    r.states[i].store.apps[a].status
  }

  /** An identifier that has been drawn and names no record never names one again. */
  lemma {:induction false} GoneForever(cfg: Config, r: Run, i: nat, j: nat, a: AppId)
    requires ValidRun(cfg, r) && i <= j < |r.states|
    requires a in r.states[i].issued && !Stored(r, i, a)
    ensures a in r.states[j].issued && !Stored(r, j, a)
  {
    if i < j {
      GoneForever(cfg, r, i, j - 1, a);
      At(cfg, r, j - 1);
      hide Apply;
      AppStep(cfg, r.states[j - 1], r.steps[j - 1], a);
      IssuedKept(cfg, r.states[j - 1], r.steps[j - 1]);
    }
  }

  /** Between two states in which it is stored, an application has moved along checked transitions. */
  lemma {:induction false} StatusPath(cfg: Config, r: Run, i: nat, j: nat, a: AppId)
    requires ValidRun(cfg, r) && i <= j < |r.states| && Stored(r, i, a) && Stored(r, j, a)
    ensures Leads(StatusAt(r, i, a), StatusAt(r, j, a))
  {
    hide Leads;
    if i == j {
      LeadsRefl(StatusAt(r, i, a));
    } else {
      StillStored(cfg, r, i, j - 1, j, a);
      StatusPath(cfg, r, i, j - 1, a);
      StatusStep(cfg, r, j - 1, a);
      LeadsTrans(StatusAt(r, i, a), StatusAt(r, j - 1, a), StatusAt(r, j, a));
    }
  }

  lemma StatusStep(cfg: Config, r: Run, i: nat, a: AppId)
    requires ValidRun(cfg, r) && i < |r.steps| && Stored(r, i, a) && Stored(r, i + 1, a)
    ensures Leads(StatusAt(r, i, a), StatusAt(r, i + 1, a))
  {
    At(cfg, r, i);
    hide Apply, Leads;
    AppStep(cfg, r.states[i], r.steps[i], a);
    MovesLead(StatusAt(r, i, a), StatusAt(r, i + 1, a));
  }

  /** An application stored at two moments was stored all the time in between. */
  lemma StillStored(cfg: Config, r: Run, i: nat, k: nat, j: nat, a: AppId)
    requires ValidRun(cfg, r) && i <= k <= j < |r.states| && Stored(r, i, a) && Stored(r, j, a)
    ensures Stored(r, k, a)
  {
    if !Stored(r, k, a) {
      RunBase(cfg, r, i);
      IssuedStays(cfg, r, i, k, a);
      GoneForever(cfg, r, k, j, a);
    }
  }

  lemma {:induction false} IssuedStays(cfg: Config, r: Run, i: nat, j: nat, a: AppId)
    requires ValidRun(cfg, r) && i <= j < |r.states| && a in r.states[i].issued
    ensures a in r.states[j].issued
  {
    if i < j {
      IssuedStays(cfg, r, i, j - 1, a);
      At(cfg, r, j - 1);
      IssuedKept(cfg, r.states[j - 1], r.steps[j - 1]);
    }
  }

  /** Once provisioning has started an application only goes forward, and Revoked is final. */
  predicate NotBefore(from: Status, to: Status) {
    && (Started(from) ==> Started(to))
    && (from.Approved? ==> to.Approved? || to.Revoked?)
    && (from.Revoked? ==> to.Revoked?)
  }

  lemma {:induction false} ForwardOnly(cfg: Config, r: Run, i: nat, j: nat, a: AppId)
    requires ValidRun(cfg, r) && i <= j < |r.states| && Stored(r, i, a) && Stored(r, j, a)
    ensures NotBefore(StatusAt(r, i, a), StatusAt(r, j, a))
  {
    if i < j {
      StillStored(cfg, r, i, j - 1, j, a);
      ForwardOnly(cfg, r, i, j - 1, a);
      At(cfg, r, j - 1);
      hide Apply;
      AppStep(cfg, r.states[j - 1], r.steps[j - 1], a);
    }
  }

  ghost predicate EntersProvisioning(r: Run, i: nat, a: AppId)
    requires i + 1 < |r.states|
  {
    && Stored(r, i + 1, a) && StatusAt(r, i + 1, a).Provisioning?
    && (Stored(r, i, a) ==> !StatusAt(r, i, a).Provisioning?)
  }

  /** An application enters Provisioning at most once in its life. */
  lemma ProvisioningOnce(cfg: Config, r: Run, i: nat, j: nat, a: AppId)
    requires ValidRun(cfg, r) && i < j && j + 1 < |r.states| && EntersProvisioning(r, i, a)
    ensures !EntersProvisioning(r, j, a)
  {
    if Stored(r, j + 1, a) {
      StillStored(cfg, r, i + 1, j, j + 1, a);
      ForwardOnly(cfg, r, i + 1, j, a);
      ForwardOnly(cfg, r, j, j + 1, a);
    }
  }

  // ---------------------------------------------------------------- CreateClient succeeds at most once

  /** CreateClient has been called for the application and cannot be called again. */
  predicate Spent(st: State, a: AppId) {
    && a in st.issued
    && (a in st.cache || a !in st.store.apps || st.store.apps[a].status.Approved? || st.store.apps[a].status.Revoked?)
  }

  lemma SpentStays(cfg: Config, st: State, step: Step, a: AppId)
    requires Base(st) && Allowed(st, step) && (Spent(st, a) || CreatesClient(st, step, a))
    ensures Spent(Apply(cfg, st, step), a)
  {
    hide Base, Apply, RecordsOk, Indexed, WorkFits, NamesApart, NoOrphans;
    IssuedKept(cfg, st, step);
    Parts(st);
    if a in st.store.apps {
      Known(st, a);
    }
    AppStep(cfg, st, step, a);
    if step.op.RunOnce? {
      CacheStep(cfg, st, step, a);
    }
  }

  lemma {:induction false} SpentForever(cfg: Config, r: Run, i: nat, j: nat, a: AppId)
    requires ValidRun(cfg, r) && i < j < |r.states| && CreatesClient(r.states[i], r.steps[i], a)
    ensures Spent(r.states[j], a)
  {
    At(cfg, r, j - 1);
    hide Base, Apply;
    if i < j - 1 {
      SpentForever(cfg, r, i, j - 1, a);
    }
    SpentStays(cfg, r.states[j - 1], r.steps[j - 1], a);
  }

  /** In every run, with any failures and any re-delivery, CreateClient succeeds at most once per application. */
  lemma CreatesOnce(cfg: Config, r: Run, i: nat, j: nat, a: AppId)
    requires ValidRun(cfg, r) && i < j < |r.steps| && CreatesClient(r.states[i], r.steps[i], a)
    ensures !CreatesClient(r.states[j], r.steps[j], a)
  {
    SpentForever(cfg, r, i, j, a);
  }

  // ---------------------------------------------------------------- secret versions

  /** How many of the first n steps wrote a rotated secret of the application. */
  function Rotations(cfg: Config, r: Run, a: AppId, n: nat): nat
    requires n <= |r.steps| < |r.states|
  {
    if n == 0 then 0
    else Rotations(cfg, r, a, n - 1) + if SavesRotation(cfg, r.states[n - 1].store, r.steps[n - 1], a) then 1 else 0
  }

  ghost predicate VersionOk(st: State, a: AppId, rotations: nat) {
    if a in st.store.apps then
      if st.store.apps[a].status.Approved? || st.store.apps[a].status.Revoked?
      then st.store.apps[a].secretVersion == 1 + rotations
      else rotations == 0
    else a !in st.issued ==> rotations == 0
  }

  lemma VersionStep(cfg: Config, st: State, step: Step, a: AppId, n: nat)
    requires Base(st) && Allowed(st, step) && VersionOk(st, a, n)
    ensures VersionOk(Apply(cfg, st, step), a, n + if SavesRotation(cfg, st.store, step, a) then 1 else 0)
  {
    IssuedKept(cfg, st, step);
    StepRecords(cfg, st, step);
    hide Apply;
    assert a in st.store.apps ==> a in st.issued && RecordOk(a, st.store.apps[a]);
    var st' := Apply(cfg, st, step);
    assert a in st'.store.apps ==> RecordOk(a, st'.store.apps[a]);
    AppStep(cfg, st, step, a);
  }

  /** The secret version of an approved or revoked application is one more than the rotations it has seen. */
  lemma {:induction false} SecretVersions(cfg: Config, r: Run, i: nat, a: AppId)
    requires ValidRun(cfg, r) && i < |r.states|
    ensures VersionOk(r.states[i], a, Rotations(cfg, r, a, i))
  {
    if i > 0 {
      SecretVersions(cfg, r, i - 1, a);
      At(cfg, r, i - 1);
      VersionStep(cfg, r.states[i - 1], r.steps[i - 1], a, Rotations(cfg, r, a, i - 1));
    }
  }
}
