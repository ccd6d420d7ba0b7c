/** When the outbox holds exactly the work of the provisioning applications, and when working passes empty it. */
module Drain {
  import opened Common
  import opened Domain
  import opened Repositories
  import opened Protocol
  import opened Lifecycle
  import opened Invariant
  import opened Steps
  import opened Runs
  import opened Tearing
  import opened Agreement

  // ---------------------------------------------------------------- leftovers

  /** The pass approves the application but fails to complete the event. */
  predicate Unacknowledged(st: State, step: Step) {
    PassApproves(st, step) && CompleteCall in step.env.faults
  }

  predicate UnacknowledgedFor(st: State, step: Step, a: AppId) {
    Unacknowledged(st, step) && PassApp(st, step) == a
  }

  /** The application, if stored, is provisioning if and only if its event is not completed. */
  predicate Balanced(st: State, a: AppId) {
    a in st.store.apps ==> (st.store.apps[a].status.Provisioning? <==> Pending(st.store.outbox, a))
  }

  /** The pass delivers the application's event again and can load the record and complete the event. */
  predicate Redelivers(st: State, step: Step, a: AppId) {
    PassClaims(st, step) && PassApp(st, step) == a && LoadCall !in step.env.faults && CompleteCall !in step.env.faults
  }

  /** The application is past provisioning, and its event is still uncompleted. */
  predicate LeftOver(st: State, a: AppId) {
    a in st.store.apps && !st.store.apps[a].status.Provisioning? && Pending(st.store.outbox, a)
  }

  lemma BalancedParts(st: State, a: AppId)
    requires Base(st)
    ensures Balanced(st, a) <==> !Stranded(st, a) && !LeftOver(st, a)
  {
    SuppliedExactly(st, a);
    hide Base;
  }

  lemma OpLeaves(cfg: Config, st: State, step: Step, a: AppId)
    requires Base(st) && Allowed(st, step) && !step.op.RunOnce? && a in Apply(cfg, st, step).store.apps
    ensures LeftOver(Apply(cfg, st, step), a) <==> LeftOver(st, a)
  {
    hide Apply, Base, RecordsOk, WorkFits, CacheOwned, NamesApart, NoOrphans, Indexed;
    Parts(st);
    var o := st.store.outbox;
    AppStep(cfg, st, step, a);
    EventStep(cfg, st, step, if Queued(o, a) then o.byKey[ProvisionKey(a)] else "");
    if a in st.store.apps {
      Known(st, a);
    } else {
      NotIssued(st, a);
    }
  }

  lemma PassLeaves(cfg: Config, st: State, step: Step, a: AppId)
    requires Base(st) && Allowed(st, step) && PassClaims(st, step) && a in st.store.apps
    ensures LeftOver(Apply(cfg, st, step), a)
            <==> UnacknowledgedFor(st, step, a) || (LeftOver(st, a) && !Redelivers(st, step, a))
  {
    hide Apply, Base, RecordsOk, WorkFits, CacheOwned, NamesApart, NoOrphans, Indexed;
    Parts(st);
    PassShape(cfg, st, step);
    var o := st.store.outbox;
    KnownEvent(st, step.op.choice.value);
    if Queued(o, a) {
      PendingEvent(st, a);
      EventStep(cfg, st, step, o.byKey[ProvisionKey(a)]);
    }
  }

  lemma PendingEvent(st: State, a: AppId)
    requires Base(st) && Queued(st.store.outbox, a)
    ensures var e := st.store.outbox.byKey[ProvisionKey(a)];
            e in st.store.outbox.events && st.store.outbox.events[e].app == a
  {
    Parts(st);
    hide Base;
    var e := st.store.outbox.byKey[ProvisionKey(a)];
    assert EventOk(st.store.outbox, st.issued, e);
  }

  /**
   An application is left over after a step exactly if the step is an unacknowledged approval, or it was and is not
   redelivered.
   */
  lemma LeftOverStep(cfg: Config, st: State, step: Step, a: AppId)
    requires Base(st) && Allowed(st, step) && a in Apply(cfg, st, step).store.apps
    ensures LeftOver(Apply(cfg, st, step), a)
            <==> UnacknowledgedFor(st, step, a) || (LeftOver(st, a) && !Redelivers(st, step, a))
  {
    hide Apply, Base;
    if !step.op.RunOnce? {
      OpLeaves(cfg, st, step, a);
    } else if PassClaims(st, step) {
      PassShape(cfg, st, step);
      PassLeaves(cfg, st, step, a);
    } else {
      PassIdle(cfg, st, step);
    }
  }

  /**
   An application stays balanced through a step exactly when the step is neither a work tear of it nor an
   approval of it whose Complete fails.
   */
  lemma BalanceStep(cfg: Config, st: State, step: Step, a: AppId)
    requires Base(st) && Allowed(st, step) && Balanced(st, a)
    ensures Balanced(Apply(cfg, st, step), a) <==> !WorkTorn(cfg, st.store, step, a) && !UnacknowledgedFor(st, step, a)
  {
    StepBase(cfg, st, step);
    hide Apply, Base, WorkTorn;
    var st' := Apply(cfg, st, step);
    BalancedParts(st, a);
    BalancedParts(st', a);
    StrandedStep(cfg, st, step, a);
    if UnacknowledgedFor(st, step, a) {
      PassShape(cfg, st, step);
    }
    hide Balanced;
    if a in st'.store.apps {
      LeftOverStep(cfg, st, step, a);
    }
  }

  ghost predicate RedeliveredIn(r: Run, k: int, n: nat, a: AppId)
    requires n <= |r.steps| < |r.states|
  {
    exists j :: k <= j < n && 0 <= j && Redelivers(r.states[j], r.steps[j], a)
  }

  /** An approval of the application went unacknowledged, and its event was not redelivered since. */
  ghost predicate Owing(r: Run, n: nat, a: AppId)
    requires n <= |r.steps| < |r.states|
  {
    exists i :: 0 <= i < n && UnacknowledgedFor(r.states[i], r.steps[i], a) && !RedeliveredIn(r, i + 1, n, a)
  }

  lemma OwingStep(r: Run, n: nat, a: AppId)
    requires 0 < n <= |r.steps| < |r.states|
    ensures Owing(r, n, a)
            <==> || UnacknowledgedFor(r.states[n - 1], r.steps[n - 1], a)
                 || (Owing(r, n - 1, a) && !Redelivers(r.states[n - 1], r.steps[n - 1], a))
  {
    hide UnacknowledgedFor, Redelivers;
    var st, step := r.states[n - 1], r.steps[n - 1];
    if UnacknowledgedFor(st, step, a) {
      assert !RedeliveredIn(r, n, n, a);
    }
    if Owing(r, n - 1, a) && !Redelivers(st, step, a) {
      var i :| 0 <= i < n - 1 && UnacknowledgedFor(r.states[i], r.steps[i], a) && !RedeliveredIn(r, i + 1, n - 1, a);
      assert !RedeliveredIn(r, i + 1, n, a);
    }
    if Owing(r, n, a) {
      var i :| 0 <= i < n && UnacknowledgedFor(r.states[i], r.steps[i], a) && !RedeliveredIn(r, i + 1, n, a);
      if i < n - 1 {
        assert !RedeliveredIn(r, i + 1, n - 1, a);
      }
    }
  }

  /** No approval of an identifier went unacknowledged before it was drawn. */
  lemma OwingIssued(cfg: Config, r: Run, n: nat, a: AppId)
    requires ValidRun(cfg, r) && n < |r.states| && Owing(r, n, a)
    ensures a in r.states[n].issued
  {
    var i :| 0 <= i < n && UnacknowledgedFor(r.states[i], r.steps[i], a);
    RunBase(cfg, r, i);
    Known(r.states[i], a);
    IssuedStays(cfg, r, i, n, a);
  }

  /** In every run a stored application is left over exactly if an approval of it is owed its acknowledgement. */
  lemma {:induction false} LeftOverExactly(cfg: Config, r: Run, n: nat, a: AppId)
    requires ValidRun(cfg, r) && n < |r.states| && a in r.states[n].store.apps
    ensures LeftOver(r.states[n], a) <==> Owing(r, n, a)
  {
    assert |r.states| == |r.steps| + 1 && n > 0;
    At(cfg, r, n - 1);
    hide ValidRun, Apply, Base, UnacknowledgedFor, Redelivers, LeftOver;
    var st, step := r.states[n - 1], r.steps[n - 1];
    OwingStep(r, n, a);
    LeftOverStep(cfg, st, step, a);
    if a in st.store.apps {
      LeftOverExactly(cfg, r, n - 1, a);
    } else {
      NeverLeft(cfg, r, n - 1, a);
    }
  }

  /** Nothing is owed for an application that is about to appear. */
  lemma NeverLeft(cfg: Config, r: Run, n: nat, a: AppId)
    requires ValidRun(cfg, r) && n < |r.steps| && a !in r.states[n].store.apps && a in r.states[n + 1].store.apps
    ensures !LeftOver(r.states[n], a) && !Owing(r, n, a)
  {
    hide Apply;
    if Owing(r, n, a) {
      OwingIssued(cfg, r, n, a);
      GoneForever(cfg, r, n, n + 1, a);
    }
  }

  /**
   In every run a stored application is provisioning if and only if exactly one uncompleted event carries its key,
   precisely when no work tear hit it and no approval of it went unacknowledged without a later redelivery.
   */
  lemma ProvisioningIffOneEvent(cfg: Config, r: Run, n: nat, a: AppId)
    requires ValidRun(cfg, r) && n < |r.states| && a in r.states[n].store.apps
    ensures (r.states[n].store.apps[a].status.Provisioning? <==> |PendingEvents(r.states[n].store.outbox, a)| == 1)
            <==> && (forall i :: 0 <= i < n ==> !WorkTorn(cfg, r.states[i].store, r.steps[i], a))
                 && !Owing(r, n, a)
  {
    RunBase(cfg, r, n);
    PendingIsOne(r.states[n], a);
    StrandedExactly(cfg, r, n, a);
    LeftOverExactly(cfg, r, n, a);
    BalancedParts(r.states[n], a);
    hide ValidRun, Base, WorkTorn, Owing, Stranded, LeftOver, PendingEvents, Pending;
  }

  /** After an unacknowledged approval, one such delivery settles the application again, and for good. */
  lemma RedeliverySettles(cfg: Config, r: Run, k: nat, n: nat, a: AppId)
    requires ValidRun(cfg, r) && k < n < |r.states| && Redelivers(r.states[k], r.steps[k], a)
    requires a in r.states[k].store.apps && !r.states[k].store.apps[a].status.Provisioning?
    requires a in r.states[n].store.apps
    ensures !r.states[n].store.apps[a].status.Provisioning? && |PendingEvents(r.states[n].store.outbox, a)| == 0
  {
    SettledNow(cfg, r, k, a);
    RunBase(cfg, r, n);
    SettledForGood(cfg, r, k + 1, n, a);
    hide Base, ValidRun;
    PendingIsOne(r.states[n], a);
  }

  /** Started, no longer provisioning, and its event completed. */
  predicate SettledApp(st: State, a: AppId) {
    && Queued(st.store.outbox, a) && !Pending(st.store.outbox, a) && a in st.issued
    && (a in st.store.apps ==> st.store.apps[a].status.Approved? || st.store.apps[a].status.Revoked?)
  }

  lemma SettledNow(cfg: Config, r: Run, k: nat, a: AppId)
    requires ValidRun(cfg, r) && k < |r.steps| && Redelivers(r.states[k], r.steps[k], a)
    requires a in r.states[k].store.apps && !r.states[k].store.apps[a].status.Provisioning?
    ensures SettledApp(r.states[k + 1], a)
  {
    At(cfg, r, k);
    var st, step := r.states[k], r.steps[k];
    hide ValidRun, Base, Apply;
    PassShape(cfg, st, step);
    Known(st, a);
    KnownEvent(st, step.op.choice.value);
  }

  lemma {:induction false} SettledForGood(cfg: Config, r: Run, k: nat, n: nat, a: AppId)
    requires ValidRun(cfg, r) && k <= n < |r.states| && SettledApp(r.states[k], a)
    ensures SettledApp(r.states[n], a)
  {
    hide Apply, Base, SettledApp, Allowed;
    if k < n {
      SettledForGood(cfg, r, k, n - 1, a);
      At(cfg, r, n - 1);
      SettledStep(cfg, r.states[n - 1], r.steps[n - 1], a);
    }
  }

  lemma SettledStep(cfg: Config, st: State, step: Step, a: AppId)
    requires Base(st) && Allowed(st, step) && SettledApp(st, a)
    ensures SettledApp(Apply(cfg, st, step), a)
  {
    hide Apply, Base, RecordsOk, WorkFits, CacheOwned, NamesApart, NoOrphans;
    Parts(st);
    AppStep(cfg, st, step, a);
    IssuedKept(cfg, st, step);
    EventStep(cfg, st, step, st.store.outbox.byKey[ProvisionKey(a)]);
    hide Indexed;
  }

  // ---------------------------------------------------------------- draining

  function Uncompleted(o: Outbox): set<EventId> {
    set e | e in o.events && o.events[e].completedAt.None?
  }

  /** Every uncompleted event can be claimed now. */
  ghost predicate AllEligible(o: Outbox, now: Time) {
    forall e :: e in o.events && o.events[e].completedAt.None? ==> Eligible(o.events[e], now)
  }

  /** Nothing is stuck: each uncompleted event's application is stored, and every cached credential is complete. */
  ghost predicate Drainable(st: State) {
    && (forall e :: e in st.store.outbox.events && st.store.outbox.events[e].completedAt.None? ==>
          st.store.outbox.events[e].app in st.store.apps)
    && (forall a :: a in st.cache ==> Complete(st.cache[a]))
  }

  /** A pass in which no dependency fails and a new client gets complete credentials. */
  predicate WorkingPass(step: Step) {
    step.op.RunOnce? && step.env.faults == {} && Complete(step.op.grant)
  }

  ghost predicate Passes(cfg: Config, st: State, steps: seq<Step>)
    decreases |steps|
  {
    steps != [] ==>
      Allowed(st, steps[0]) && WorkingPass(steps[0]) && Passes(cfg, Apply(cfg, st, steps[0]), steps[1..])
  }

  function AfterPasses(cfg: Config, st: State, steps: seq<Step>): State
    requires Passes(cfg, st, steps)
    decreases |steps|
  {
    if steps == [] then st else AfterPasses(cfg, Apply(cfg, st, steps[0]), steps[1..])
  }

  /** One event is completed and the others are untouched. */
  ghost predicate OneDone(o: Outbox, o': Outbox, c: EventId) {
    && c in o.events && c in o'.events && o'.events[c].completedAt.Some?
    && forall e :: e != c ==> (e in o.events <==> e in o'.events) && (e in o.events ==> o'.events[e] == o.events[e])
  }

  lemma PassIsOneDone(cfg: Config, st: State, step: Step)
    requires RecordsOk(st.store.apps, st.issued) && Drainable(st) && Allowed(st, step) && WorkingPass(step)
             && PassClaims(st, step)
    ensures OneDone(st.store.outbox, Apply(cfg, st, step).store.outbox, step.op.choice.value)
    ensures st.store.apps.Keys == Apply(cfg, st, step).store.apps.Keys
  {
    hide RecordsOk;
    PassShape(cfg, st, step);
    hide Apply;
    var c, o' := step.op.choice.value, Apply(cfg, st, step).store.outbox;
    assert PassApproves(st, step) || PassSkips(st, step);
    forall e | e != c ensures (e in st.store.outbox.events <==> e in o'.events)
      && (e in st.store.outbox.events ==> o'.events[e] == st.store.outbox.events[e]) {
      EventStep(cfg, st, step, e);
    }
  }

  lemma RestEligible(o: Outbox, o': Outbox, c: EventId, now: Time)
    requires OneDone(o, o', c) && AllEligible(o, now)
    ensures Uncompleted(o') == Uncompleted(o) - {c}
    ensures forall later :: now <= later ==> AllEligible(o', later)
  {
    forall later | now <= later ensures AllEligible(o', later) {
      forall e | e in o'.events && o'.events[e].completedAt.None? ensures Eligible(o'.events[e], later) {
        assert Eligible(o.events[e], now);
      }
    }
  }

  lemma CacheComplete(cfg: Config, st: State, step: Step)
    requires Allowed(st, step) && WorkingPass(step) && PassClaims(st, step)
    requires forall a :: a in st.cache ==> Complete(st.cache[a])
    ensures forall a :: a in Apply(cfg, st, step).cache ==> Complete(Apply(cfg, st, step).cache[a])
  {
    hide Handle;
    var s := st.store.(outbox := Claimed(st.store.outbox, step.op.choice.value, step.env.now));
    HandleShape(cfg, s, step.env, step.op.choice.value, st.cache, step.op.grant, step.op.nonce);
  }

  /** A working pass over a drainable state claims an uncompleted event and completes exactly that one. */
  lemma PassDrains(cfg: Config, st: State, step: Step)
    requires Base(st) && Drainable(st) && Allowed(st, step) && WorkingPass(step)
    requires AllEligible(st.store.outbox, step.env.now) && Uncompleted(st.store.outbox) != {}
    ensures PassClaims(st, step) && step.op.choice.value in Uncompleted(st.store.outbox)
    ensures OneDone(st.store.outbox, Apply(cfg, st, step).store.outbox, step.op.choice.value)
    ensures Drainable(Apply(cfg, st, step))
  {
    PassStarts(st, step);
    Parts(st);
    hide Base;
    PassIsOneDone(cfg, st, step);
    CacheComplete(cfg, st, step);
    hide Apply, OneDone, AllEligible;
    DrainableKept(st, Apply(cfg, st, step), step.op.choice.value);
  }

  lemma DrainableKept(st: State, st': State, c: EventId)
    requires Drainable(st) && OneDone(st.store.outbox, st'.store.outbox, c) && st'.store.apps.Keys == st.store.apps.Keys
    requires forall a :: a in st'.cache ==> Complete(st'.cache[a])
    ensures Drainable(st')
  {
    forall e | e in st'.store.outbox.events && st'.store.outbox.events[e].completedAt.None?
      ensures st'.store.outbox.events[e].app in st'.store.apps
    {
      assert e in st.store.outbox.events;
      assert st.store.outbox.events[e].app in st.store.apps.Keys;
    }
  }

  lemma PassStarts(st: State, step: Step)
    requires Base(st) && Allowed(st, step) && WorkingPass(step)
    requires AllEligible(st.store.outbox, step.env.now) && Uncompleted(st.store.outbox) != {}
    ensures PassClaims(st, step) && step.op.choice.value in Uncompleted(st.store.outbox)
  {
    var o := st.store.outbox;
    var e :| e in Uncompleted(o);
    assert Eligible(o.events[e], step.env.now);
    KnownEvent(st, step.op.choice.value);
  }

  /** A pass leaves approved applications approved and provisioning ones provisioning or approved. */
  lemma PassForward(cfg: Config, st: State, step: Step, a: AppId)
    requires PassClaims(st, step) && a in st.store.apps
    ensures var apps' := Apply(cfg, st, step).store.apps;
            && a in apps' && Apply(cfg, st, step).store.outbox.byKey == st.store.outbox.byKey
            && (apps'[a].status == st.store.apps[a].status
                || (st.store.apps[a].status.Provisioning? && apps'[a].status.Approved?))
  {
    PassShape(cfg, st, step);
    hide Apply;
  }

  /** Once no event is uncompleted, no application that has one is provisioning. */
  lemma NothingLeft(st: State, a: AppId)
    requires Base(st) && Uncompleted(st.store.outbox) == {} && a in st.store.apps && Queued(st.store.outbox, a)
    ensures !st.store.apps[a].status.Provisioning?
  {
    Known(st, a);
    hide Base;
    forall e | e in st.store.outbox.events ensures st.store.outbox.events[e].completedAt.Some? {
      assert e in Uncompleted(st.store.outbox) <==> st.store.outbox.events[e].completedAt.None?;
    }
  }

  /** The application has an event and is provisioning or approved. */
  predicate Approving(st: State, a: AppId) {
    && Queued(st.store.outbox, a) && a in st.store.apps
    && (st.store.apps[a].status.Provisioning? || st.store.apps[a].status.Approved?)
  }

  /**
   Working passes, one per uncompleted event, complete them all and approve every provisioning application that has
   one.
   */
  lemma {:induction false} Drains(cfg: Config, st: State, steps: seq<Step>, a: AppId)
    requires Base(st) && Drainable(st) && Passes(cfg, st, steps) && |steps| == |Uncompleted(st.store.outbox)|
    requires steps != [] ==> AllEligible(st.store.outbox, steps[0].env.now)
    ensures Base(AfterPasses(cfg, st, steps)) && Uncompleted(AfterPasses(cfg, st, steps).store.outbox) == {}
    ensures Approving(st, a) ==> Approving(AfterPasses(cfg, st, steps), a)
                                 && AfterPasses(cfg, st, steps).store.apps[a].status.Approved?
    decreases |steps|
  {
    hide Base, Drainable, WorkingPass, AllEligible, OneDone;
    if steps == [] {
      if Approving(st, a) {
        NothingLeft(st, a);
      }
    } else {
      var st', o := Apply(cfg, st, steps[0]), st.store.outbox;
      PassDrains(cfg, st, steps[0]);
      StepBase(cfg, st, steps[0]);
      RestEligible(o, st'.store.outbox, steps[0].op.choice.value, steps[0].env.now);
      IssuedKept(cfg, st, steps[0]);
      if a in st.store.apps {
        PassForward(cfg, st, steps[0], a);
      }
      Drains(cfg, st', steps[1..], a);
    }
  }

  // ---------------------------------------------------------------- what can never drain

  /** The event's application is gone for good, or its cached credentials will never be usable. */
  ghost predicate Stuck(st: State, e: EventId) {
    && e in st.store.outbox.events && st.store.outbox.events[e].completedAt.None?
    && var a := st.store.outbox.events[e].app;
       || (a in st.issued && a !in st.store.apps)
       || (a in st.store.apps && st.store.apps[a].status.Provisioning? && a in st.cache && !Complete(st.cache[a]))
  }

  /** Whatever happens, a stuck event stays uncompleted and stuck. */
  lemma StuckStays(cfg: Config, st: State, step: Step, e: EventId)
    requires Base(st) && Allowed(st, step) && Stuck(st, e)
    ensures Stuck(Apply(cfg, st, step), e)
  {
    hide Base, Apply, RecordsOk, WorkFits, CacheOwned, NamesApart, NoOrphans, Indexed;
    Parts(st);
    var a := st.store.outbox.events[e].app;
    KnownEvent(st, e);
    EventStep(cfg, st, step, e);
    AppStep(cfg, st, step, a);
    IssuedKept(cfg, st, step);
    if PassClaims(st, step) {
      StuckPass(cfg, st, step, e);
    } else if step.op.RunOnce? {
      PassIdle(cfg, st, step);
    }
  }

  lemma StuckPass(cfg: Config, st: State, step: Step, e: EventId)
    requires Base(st) && Allowed(st, step) && Stuck(st, e) && PassClaims(st, step)
    ensures Stuck(Apply(cfg, st, step), e)
  {
    hide Base, Apply, RecordsOk, WorkFits, CacheOwned, NamesApart, NoOrphans, Indexed;
    Parts(st);
    var a := st.store.outbox.events[e].app;
    KnownEvent(st, e);
    KnownEvent(st, step.op.choice.value);
    PassShape(cfg, st, step);
    CacheStep(cfg, st, step, a);
    EventStep(cfg, st, step, e);
    IssuedKept(cfg, st, step);
  }

  lemma {:induction false} StuckAfter(cfg: Config, st: State, steps: seq<Step>, e: EventId)
    requires Base(st) && Passes(cfg, st, steps) && Stuck(st, e)
    ensures Stuck(AfterPasses(cfg, st, steps), e)
    decreases |steps|
  {
    hide Stuck, Base, WorkingPass;
    if steps != [] {
      StuckStays(cfg, st, steps[0], e);
      StepBase(cfg, st, steps[0]);
      StuckAfter(cfg, Apply(cfg, st, steps[0]), steps[1..], e);
    }
  }

  /** A state that is not drainable holds a stuck event. */
  lemma FindStuck(st: State) returns (e: EventId)
    requires Base(st) && !Drainable(st)
    ensures Stuck(st, e)
  {
    hide Base;
    var o := st.store.outbox;
    if d :| d in o.events && o.events[d].completedAt.None? && o.events[d].app !in st.store.apps {
      KnownEvent(st, d);
      e := d;
    } else {
      var a :| a in st.cache && !Complete(st.cache[a]);
      KnownCached(st, a);
      e := o.byKey[ProvisionKey(a)];
      KnownEvent(st, e);
      Parts(st);
    }
  }

  /**
   From any reachable state with every uncompleted event claimable, as many working passes as there are such
   events leave none of them if and only if nothing was stuck; then every provisioning application that is not
   stranded ends up approved.
   */
  lemma DrainsExactly(cfg: Config, st: State, steps: seq<Step>)
    requires Base(st) && Passes(cfg, st, steps) && |steps| == |Uncompleted(st.store.outbox)|
    requires steps != [] ==> AllEligible(st.store.outbox, steps[0].env.now)
    ensures Uncompleted(AfterPasses(cfg, st, steps).store.outbox) == {} <==> Drainable(st)
    ensures Drainable(st) ==>
              forall a :: a in st.store.apps && st.store.apps[a].status.Provisioning? && !Stranded(st, a) ==>
                a in AfterPasses(cfg, st, steps).store.apps
                  && AfterPasses(cfg, st, steps).store.apps[a].status.Approved?
  {
    hide Base, AllEligible;
    if Drainable(st) {
      hide Drainable;
      Drains(cfg, st, steps, "");
      forall a | a in st.store.apps && st.store.apps[a].status.Provisioning? && !Stranded(st, a)
        ensures a in AfterPasses(cfg, st, steps).store.apps
                && AfterPasses(cfg, st, steps).store.apps[a].status.Approved?
      {
        Drains(cfg, st, steps, a);
      }
    } else {
      var e := FindStuck(st);
      StuckAfter(cfg, st, steps, e);
      assert e in Uncompleted(AfterPasses(cfg, st, steps).store.outbox);
    }
  }
}
