/** Concrete runs for each way in which the agreements of an application fail, with review off. */
module Failures {
  import opened Common
  import opened Domain
  import opened Repositories
  import opened Hydra
  import opened Protocol
  import opened Lifecycle
  import opened Invariant
  import opened Steps
  import opened Tearing
  import opened Drain

  const INPUT := DraftInput("n", "d", "", [], [], None)

  /** No review, room for one application, and a subject that needs no trimming. */
  predicate Direct(cfg: Config) {
    !cfg.requireReview && cfg.maxOpen >= 1 && cfg.trim("u") == "u"
  }

  function Creation(faults: set<Site>): Step {
    Step(Env(1, faults), Op.CreateDraft("u", Standing(true), INPUT, true, "a", "e"))
  }

  function Pass(faults: set<Site>, grant: Credentials): Step {
    Step(Env(1, faults), Op.RunOnce(Some("e"), grant, "k"))
  }

  const GRANT := Credentials("c", "s")

  function Submitted(cfg: Config): Application {
    NewDraft(cfg, "a", "u", INPUT, 1).(status := Provisioning)
  }

  function OneEvent(attempts: int, claimedAt: Option<Time>, completedAt: Option<Time>): Outbox {
    Outbox(map["e" := ProvisionEvent("a", "e", 1).(attempts := attempts, claimedAt := claimedAt,
                                                   completedAt := completedAt)],
           map[ProvisionKey("a") := "e"])
  }

  // ---------------------------------------------------------------- a work tear

  /** Create with a failing enqueue and a failing rollback: provisioning, and no event will ever come. */
  lemma WorkTear(cfg: Config)
    requires Direct(cfg)
    ensures var step := Creation({EnqueueCall, RollbackCall});
            && Allowed(Initial(1), step) && WorkTorn(cfg, Initial(1).store, step, "a")
            && Stranded(Apply(cfg, Initial(1), step), "a")
  {
    assert OpenApps(map[], "u") == {};
  }

  // ---------------------------------------------------------------- an application being provisioned

  /** One provisioning application with its event, and nothing else. */
  predicate Waiting(cfg: Config, st: State) {
    && st.store.apps == map["a" := Submitted(cfg)] && st.store.outbox == OneEvent(0, None, None)
    && st.store.live == map[] && st.cache == map[] && st.issued == {"a"} && st.granted == {} && st.clock == 1
  }

  lemma CreatesWaiting(cfg: Config)
    requires Direct(cfg)
    ensures Allowed(Initial(1), Creation({})) && Waiting(cfg, Apply(cfg, Initial(1), Creation({})))
  {
    assert OpenApps(map[], "u") == {};
  }

  lemma PassAllowed(cfg: Config, st: State, faults: set<Site>, grant: Credentials)
    requires Waiting(cfg, st) && ClaimCall !in faults && grant.id == "c"
    ensures Allowed(st, Pass(faults, grant)) && PassClaims(st, Pass(faults, grant))
            && PassApp(st, Pass(faults, grant)) == "a"
  {
  }

  // ---------------------------------------------------------------- unacknowledged approvals and stuck events

  /** The application is approved with its client live, while its event is still uncompleted. */
  predicate Leftover(cfg: Config, st: State) {
    && st.store.apps == map["a" := ApprovedWith(Submitted(cfg), GRANT, "k", 1)]
       && st.store.outbox == OneEvent(1, Some(1), None)
    && st.store.live == map["c" := Client(RegistrationOf(Submitted(cfg), StandardPolicy), "s")]
    && st.cache == map[] && st.issued == {"a"} && st.granted == {"c"} && st.clock == 1
  }

  /** A pass whose Complete fails leaves an approved application with an uncompleted event. */
  lemma LeavesOver(cfg: Config, st: State)
    requires Waiting(cfg, st)
    ensures var step := Pass({CompleteCall}, GRANT);
            && Allowed(st, step) && UnacknowledgedFor(st, step, "a")
            && Leftover(cfg, Apply(cfg, st, step)) && !Balanced(Apply(cfg, st, step), "a")
  {
    PassAllowed(cfg, st, {CompleteCall}, GRANT);
  }

  const DELETION := Step(Env(1, {}), Op.Delete("u", Standing(true), "a"))

  /** Deleting that application leaves its event stuck. */
  lemma LeavesStuck(cfg: Config, st: State)
    requires Direct(cfg) && Leftover(cfg, st)
    ensures Allowed(st, DELETION) && Stuck(Apply(cfg, st, DELETION), "e") && !Drainable(Apply(cfg, st, DELETION))
  {
    assert Apply(cfg, st, DELETION).store.apps == map[];
  }

  /**
   A pass for which the remote server grants no secret leaves credentials that are never usable, and a stuck event.
   */
  lemma IncompleteGrant(cfg: Config, st: State)
    requires Waiting(cfg, st)
    ensures var step := Pass({}, Credentials("c", ""));
            Allowed(st, step) && Stuck(Apply(cfg, st, step), "e")
  {
    PassAllowed(cfg, st, {}, Credentials("c", ""));
  }

  // ---------------------------------------------------------------- client and content tears

  const REVOCATION := Step(Env(1, {TransitionCall}), Op.Revoke("u", "a"))
  const ROTATION := Step(Env(1, {SaveCall}), Op.RotateSecret("u", "a", 1, "t", "k", Credentials("c", "t")))

  /** A revocation whose transition fails leaves an approved application without its client. */
  lemma ClientTear(cfg: Config, st: State)
    requires Leftover(cfg, st)
    ensures Allowed(st, REVOCATION) && ClientTorn(cfg, st.store, REVOCATION, "a")
            && !Present(Apply(cfg, st, REVOCATION), "a")
  {
  }

  /** A rotation whose Save fails leaves the client with a secret that no record holds. */
  lemma ContentTear(cfg: Config, st: State)
    requires Leftover(cfg, st) && cfg.sensitiveWindow >= 0
    ensures Allowed(st, ROTATION) && ContentTorn(cfg, st.store, ROTATION, "a")
            && !Matches(Apply(cfg, st, ROTATION), "a")
  {
    assert "s" != "t";
  }

  // ---------------------------------------------------------------- one run through all of them

  function FailingRun(cfg: Config): Run
    requires Direct(cfg)
  {
    CreatesWaiting(cfg);
    var s0 := Initial(1);
    var s1 := Apply(cfg, s0, Creation({}));
    var s2 := Apply(cfg, s1, Pass({CompleteCall}, GRANT));
    Run([s0, s1, s2, Apply(cfg, s2, DELETION)], [Creation({}), Pass({CompleteCall}, GRANT), DELETION])
  }

  /** Create, a pass whose Complete fails, delete: a valid run that ends with a stuck event. */
  lemma StuckRun(cfg: Config)
    requires Direct(cfg)
    ensures ValidRun(cfg, FailingRun(cfg))
    ensures UnacknowledgedFor(FailingRun(cfg).states[1], FailingRun(cfg).steps[1], "a")
    ensures Stuck(FailingRun(cfg).states[3], "e")
  {
    hide Apply, Allowed;
    var r := FailingRun(cfg);
    CreatesWaiting(cfg);
    LeavesOver(cfg, r.states[1]);
    LeavesStuck(cfg, r.states[2]);
    hide Waiting, Leftover, Stuck, UnacknowledgedFor;
  }
}
