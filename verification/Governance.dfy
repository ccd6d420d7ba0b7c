/** Who let an application through, and how many open applications an owner can have. */
module Governance {
  import opened Common
  import opened Domain
  import opened Repositories
  import P = Protocol
  import opened Protocol
  import opened Lifecycle
  import opened Invariant
  import opened Steps
  import opened Runs
  import E = Effects

  // ---------------------------------------------------------------- review

  /** The approval moves the application on but fails to store who approved it and why. */
  predicate ReviewLost(cfg: Config, s: Store, step: Step) {
    step.op.Approve? && Approves(cfg, s, step.env, step.op) && SaveCall in step.env.faults
  }

  /** The step is the approval that the record's reviewer and note come from. */
  predicate ApprovedBy(cfg: Config, s: Store, step: Step, app: Application) {
    && step.op.Approve? && step.op.id == app.id && Approves(cfg, s, step.env, step.op)
    && app.reviewedBy == step.op.reviewer && app.reviewedBy != ""
    && app.reviewNote == cfg.trim(step.op.reason) && app.reviewNote != ""
    && (step.op.access.isReviewer == Some(true) || step.op.access.isAdmin == Some(true))
    && (app.reviewedBy == app.owner ==> step.op.access.isAdmin == Some(true))
  }

  /** A lost approval of the application whose decision differs from what its record already said. */
  predicate Misses(cfg: Config, s: Store, step: Step, a: AppId) {
    && ReviewLost(cfg, s, step) && step.op.id == a
    && !(s.apps[a].reviewedBy == step.op.reviewer && s.apps[a].reviewNote == cfg.trim(step.op.reason))
  }

  ghost predicate ApprovedAt(cfg: Config, r: Run, i: int, app: Application)
    requires 0 <= i < |r.steps| < |r.states|
  {
    ApprovedBy(cfg, r.states[i].store, r.steps[i], app)
  }

  ghost predicate MissesAt(cfg: Config, r: Run, i: int, a: AppId)
    requires 0 <= i < |r.steps| < |r.states|
  {
    Misses(cfg, r.states[i].store, r.steps[i], a)
  }

  lemma MovedOn(cfg: Config, st: State, step: Step)
    requires Allowed(st, step) && step.op.Approve? && Approves(cfg, st.store, step.env, step.op)
    ensures var apps' := Apply(cfg, st, step).store.apps;
            step.op.id in apps' && apps'[step.op.id].status.Provisioning?
  {
    assert Apply(cfg, st, step).store == StoreAfter(cfg, st.store, step);
    hide Apply, PrepareReview;
    ApproveShape(cfg, st.store, step);
    hide StoreAfter, Approves;
  }

  /** The step is a review of the application by someone who may review it, with a note. */
  predicate Reviews(cfg: Config, s: Store, step: Step, a: AppId) {
    && (step.op.Approve? || step.op.Reject? || step.op.RequestChanges?) && step.op.id == a
    && E.Reviewable(cfg, s, step.env.faults, step.op.reviewer, step.op.access, a, step.op.reason)
  }

  /**
   In every reachable state an application leaves the review queue only by a review that lets someone decide who is a
   reviewer or an administrator, and an administrator if the application is his own.
   */
  lemma OnlyReviewersDecide(cfg: Config, st: State, step: Step, a: AppId)
    requires Base(st) && Allowed(st, step) && a in st.store.apps && st.store.apps[a].status.PendingReview?
    requires a in Apply(cfg, st, step).store.apps && !Apply(cfg, st, step).store.apps[a].status.PendingReview?
    ensures Reviews(cfg, st.store, step, a)
  {
    if !step.op.Approve? && !step.op.Reject? && !step.op.RequestChanges? {
      StaysPending(cfg, st, step, a);
    } else {
      hide Base;
      Parts(st);
      OpTouches(cfg, st, step);
      ReviewExactly(cfg, st.store, step);
      hide StoreAfter, RecordsOk, E.Reviewable;
    }
  }

  lemma ReviewExactly(cfg: Config, s: Store, step: Step)
    requires step.op.Approve? || step.op.Reject? || step.op.RequestChanges?
    ensures StoreAfter(cfg, s, step) == s || Reviews(cfg, s, step, step.op.id)
  {
    var op, env := step.op, step.env;
    hide E.Reviewable;
    match op
    case Approve(_, _, _, _, _) =>
      E.ApproveExactly(cfg, s, env, op.reviewer, op.access, op.id, op.reason, op.eventId);
      hide P.Approve;
    case Reject(_, _, _, _) =>
      E.DecideExactly(cfg, s, env, op.reviewer, op.access, op.id, op.reason, Rejected, AppRejected);
      hide P.Decide;
    case RequestChanges(_, _, _, _) =>
      E.DecideExactly(cfg, s, env, op.reviewer, op.access, op.id, op.reason, ChangesRequested, ChangesAsked);
      hide P.Decide;
  }

  lemma PassStaysPending(cfg: Config, st: State, step: Step, a: AppId)
    requires Base(st) && Allowed(st, step) && step.op.RunOnce?
    requires a in st.store.apps && st.store.apps[a].status.PendingReview?
    ensures var apps' := Apply(cfg, st, step).store.apps; a in apps' && apps'[a] == st.store.apps[a]
  {
    hide Base, Apply;
    if PassClaims(st, step) {
      PassShape(cfg, st, step);
    } else {
      PassIdle(cfg, st, step);
    }
  }

  /** No call but a review moves an application out of the queue. */
  lemma StaysPending(cfg: Config, st: State, step: Step, a: AppId)
    requires Base(st) && Allowed(st, step) && a in st.store.apps && st.store.apps[a].status.PendingReview?
    requires !step.op.Approve? && !step.op.Reject? && !step.op.RequestChanges?
    ensures a in Apply(cfg, st, step).store.apps ==> Apply(cfg, st, step).store.apps[a].status.PendingReview?
  {
    if step.op.RunOnce? {
      PassStaysPending(cfg, st, step, a);
      hide Apply, Base;
    } else {
      Known(st, a);
      Parts(st);
      hide Base, StoreAfter, RecordsOk, Indexed, WorkFits, CacheOwned, NamesApart, NoOrphans;
      if step.op.id != a {
        OpTouches(cfg, st, step);
      } else if !step.op.CreateDraft? {
        OwnStaysPending(cfg, st.store, step);
      }
    }
  }

  lemma OwnStaysPending(cfg: Config, s: Store, step: Step)
    requires !step.op.Approve? && !step.op.Reject? && !step.op.RequestChanges?
    requires !step.op.RunOnce? && !step.op.CreateDraft?
    requires step.op.id in s.apps && s.apps[step.op.id].status.PendingReview?
    ensures var apps' := StoreAfter(cfg, s, step).apps;
            step.op.id in apps' ==> apps'[step.op.id].status.PendingReview?
  {
    var op, env := step.op, step.env;
    hide E.MayManage;
    match op
    case Submit(_, _, _, _) =>
      E.SubmitExactly(cfg, s, env, op.subject, op.standing, op.id, op.eventId);
      hide P.Submit;
    case UpdateDraft(_, _, _, _, _, _) =>
      E.UpdateDraftExactly(cfg, s, env, op.subject, op.standing, op.id, op.input, op.inputValid, op.echo);
      hide P.UpdateDraft;
    case ViewSecret(_, _, _) =>
      E.ViewSecretExactly(cfg, s, env, op.subject, op.id, op.confirmedAt);
      hide P.ViewSecret;
    case RotateSecret(_, _, _, _, _, _) =>
      E.RotateSecretExactly(cfg, s, env, op.subject, op.id, op.confirmedAt, op.plaintext, op.nonce, op.echo);
      hide P.RotateSecret;
    case Revoke(_, _) =>
      E.RevokeExactly(s, env, op.subject, op.id);
      hide P.Revoke;
    case Delete(_, _, _) =>
      E.DeleteExactly(cfg, s, env, op.subject, op.standing, op.id);
      hide P.Delete;
  }

  /** Once approved, an application is past review for as long as it is stored. */
  lemma StartedSince(cfg: Config, r: Run, i: nat, n: nat, a: AppId)
    requires ValidRun(cfg, r) && i < n < |r.states| && a in r.states[n].store.apps
    requires r.steps[i].op.Approve? && r.steps[i].op.id == a
    requires Approves(cfg, r.states[i].store, r.steps[i].env, r.steps[i].op)
    ensures Started(r.states[n].store.apps[a].status)
  {
    hide Apply, Base, Allowed, Approves, ApprovedBy, ReviewLost;
    At(cfg, r, i);
    MovedOn(cfg, r.states[i], r.steps[i]);
    ForwardOnly(cfg, r, i + 1, n, a);
  }

  /** Before an application is past review it has seen no approval, recorded or lost. */
  lemma NoneBefore(cfg: Config, r: Run, n: nat, app: Application)
    requires ValidRun(cfg, r) && n < |r.steps| && app.id in r.states[n].store.apps
    requires !Started(r.states[n].store.apps[app.id].status)
    ensures forall i :: 0 <= i < n ==> !ApprovedAt(cfg, r, i, app) && !MissesAt(cfg, r, i, app.id)
  {
    forall i | 0 <= i < n ensures !ApprovedAt(cfg, r, i, app) && !MissesAt(cfg, r, i, app.id) {
      hide Approves;
      if ApprovedAt(cfg, r, i, app) || MissesAt(cfg, r, i, app.id) {
        StartedSince(cfg, r, i, n, app.id);
      }
    }
  }

  /** A step after which an application is past review either keeps its trail or begins it. */
  lemma TrailStep(cfg: Config, st: State, step: Step, a: AppId)
    requires Base(st) && Allowed(st, step) && cfg.requireReview
    requires a in Apply(cfg, st, step).store.apps && Started(Apply(cfg, st, step).store.apps[a].status)
    ensures a in st.store.apps
    ensures var app := Apply(cfg, st, step).store.apps[a];
            if Started(st.store.apps[a].status)
            then
              && app.reviewedBy == st.store.apps[a].reviewedBy && app.reviewNote == st.store.apps[a].reviewNote
              && app.owner == st.store.apps[a].owner && app.id == st.store.apps[a].id
              && !ApprovedBy(cfg, st.store, step, app) && !Misses(cfg, st.store, step, a)
            else app.id == a && (ApprovedBy(cfg, st.store, step, app) <==> !Misses(cfg, st.store, step, a))
  {
    hide Base;
    Parts(st);
    if a in st.store.apps {
      Known(st, a);
    }
    AppStep(cfg, st, step, a);
    if !Started(st.store.apps[a].status) {
      RecordedExactly(cfg, st, step);
    }
    hide Apply, RecordsOk, Indexed, WorkFits, CacheOwned, NamesApart, NoOrphans;
  }

  /** Some earlier approval let the application through, and its record says so. */
  ghost predicate HasTrail(cfg: Config, r: Run, n: nat, app: Application)
    requires n <= |r.steps| < |r.states|
  {
    exists i :: 0 <= i < n && ApprovedAt(cfg, r, i, app)
  }

  /** Some earlier approval of the application was lost that its record does not speak of. */
  ghost predicate Missed(cfg: Config, r: Run, n: nat, a: AppId)
    requires n <= |r.steps| < |r.states|
  {
    exists i :: 0 <= i < n && MissesAt(cfg, r, i, a)
  }

  lemma TrailGrows(cfg: Config, r: Run, n: nat, app: Application)
    requires 0 < n <= |r.steps| < |r.states|
    ensures HasTrail(cfg, r, n, app) <==> HasTrail(cfg, r, n - 1, app) || ApprovedAt(cfg, r, n - 1, app)
    ensures Missed(cfg, r, n, app.id) <==> Missed(cfg, r, n - 1, app.id) || MissesAt(cfg, r, n - 1, app.id)
  {
    hide ApprovedAt, MissesAt;
  }

  lemma TrailCarries(cfg: Config, r: Run, n: nat, app: Application, app': Application)
    requires n <= |r.steps| < |r.states| && app'.id == app.id && app'.owner == app.owner
    requires app'.reviewedBy == app.reviewedBy && app'.reviewNote == app.reviewNote
    ensures HasTrail(cfg, r, n, app) <==> HasTrail(cfg, r, n, app')
  {
    forall i | 0 <= i < n ensures ApprovedAt(cfg, r, i, app) <==> ApprovedAt(cfg, r, i, app') {
      SameTrail(cfg, r.states[i].store, r.steps[i], app, app');
    }
    hide ApprovedAt;
  }

  lemma NoTrailBefore(cfg: Config, r: Run, n: nat, app: Application)
    requires ValidRun(cfg, r) && n < |r.steps| && app.id in r.states[n].store.apps
    requires !Started(r.states[n].store.apps[app.id].status)
    ensures !HasTrail(cfg, r, n, app) && !Missed(cfg, r, n, app.id)
  {
    NoneBefore(cfg, r, n, app);
    hide ValidRun, ApprovedAt, MissesAt;
  }

  /**
   With review on, an application past review carries reviewer and note of an approval that let it through if and
   only if no approval of it was lost that differed from what its record already said.
   */
  lemma {:induction false} ReviewTrail(cfg: Config, r: Run, n: nat, a: AppId)
    requires ValidRun(cfg, r) && n < |r.states| && cfg.requireReview
    requires a in r.states[n].store.apps && Started(r.states[n].store.apps[a].status)
    ensures HasTrail(cfg, r, n, r.states[n].store.apps[a]) <==> !Missed(cfg, r, n, a)
  {
    assert n > 0 && |r.states| == |r.steps| + 1;
    hide ValidRun, Apply, Base, Allowed, ApprovedBy, Misses, HasTrail, Missed;
    At(cfg, r, n - 1);
    var st, app := r.states[n - 1], r.states[n].store.apps[a];
    TrailStep(cfg, st, r.steps[n - 1], a);
    TrailGrows(cfg, r, n, app);
    if Started(st.store.apps[a].status) {
      ReviewTrail(cfg, r, n - 1, a);
      TrailCarries(cfg, r, n - 1, app, st.store.apps[a]);
    } else {
      NoTrailBefore(cfg, r, n - 1, app);
    }
  }

  lemma SameTrail(cfg: Config, s: Store, step: Step, app: Application, app': Application)
    requires app'.id == app.id && app'.owner == app.owner
    requires app'.reviewedBy == app.reviewedBy && app'.reviewNote == app.reviewNote
    ensures ApprovedBy(cfg, s, step, app) <==> ApprovedBy(cfg, s, step, app')
  {
    hide Approves;
  }

  /** With white space trimmed as the portal does, the note of such an application is not blank. */
  lemma NoteNotBlank(cfg: Config, s: Store, step: Step, app: Application)
    requires ApprovedBy(cfg, s, step, app) && (forall t :: cfg.trim(t) == Trim(t))
    ensures !Blank(app.reviewNote)
  {
    hide Approves;
    TrimIdempotent(step.op.reason);
  }

  /**
   An approval that moves an application on is recorded in it exactly when its Save succeeds or the record
   already says the same.  A lost one leaves the reviewer and the note of whatever decision came before.
   */
  lemma RecordedExactly(cfg: Config, st: State, step: Step)
    requires Base(st) && Allowed(st, step) && step.op.Approve? && Approves(cfg, st.store, step.env, step.op)
    ensures var before, app := st.store.apps[step.op.id], Apply(cfg, st, step).store.apps[step.op.id];
            && app.status.Provisioning?
            && (ApprovedBy(cfg, st.store, step, app) <==>
                  !ReviewLost(cfg, st.store, step)
                  || (before.reviewedBy == step.op.reviewer && before.reviewNote == cfg.trim(step.op.reason)))
            && (ReviewLost(cfg, st.store, step) ==>
                  app.reviewedBy == before.reviewedBy && app.reviewNote == before.reviewNote)
  {
    Known(st, step.op.id);
    hide Base;
    ApproveShape(cfg, st.store, step);
    hide StoreAfter;
  }

  // ---------------------------------------------------------------- open applications

  lemma SubsetCard<T>(a: set<T>, b: set<T>)
    requires a <= b
    ensures |a| <= |b|
  {
    assert b == a + (b - a);
  }

  /** The step reopens a rejected application of an owner who is already at the limit. */
  ghost predicate PassesLimit(cfg: Config, s: Store, step: Step, owner: string) {
    && (exists a :: Reopens(cfg, s, step, a) && s.apps[a].owner == owner)
    && |OpenApps(s.apps, owner)| == cfg.maxOpen
  }

  lemma ReopenedIsOpen(cfg: Config, s: Store, step: Step, a: AppId)
    requires Reopens(cfg, s, step, a) && RecordOk(a, s.apps[a])
    ensures var s' := StoreAfter(cfg, s, step);
            && a in s'.apps && IsOpen(s'.apps[a].status) && s'.apps[a].owner == s.apps[a].owner
            && s'.apps.Keys == s.apps.Keys && forall b :: b in s.apps && b != a ==> s'.apps[b] == s.apps[b]
  {
    hide EnsureEligible;
    if step.op.Submit? && !cfg.requireReview {
      var app := s.apps[a].(status := Draft, updatedAt := step.env.now);
      forall b: AppId {
        StartFate(cfg, s.(apps := s.apps[a := app]), step.env, step.op.subject, a, step.op.eventId, b);
      }
      hide StartProvisioning;
    }
  }

  /** An appearing open application is newly created or reopened. */
  lemma OpenGrows(cfg: Config, st: State, step: Step, owner: string, a: AppId)
    requires Base(st) && Allowed(st, step)
    requires a in OpenApps(Apply(cfg, st, step).store.apps, owner) && a !in OpenApps(st.store.apps, owner)
    ensures if a in st.store.apps then Reopens(cfg, st.store, step, a) && st.store.apps[a].owner == owner
            else Born(cfg, st.store, step, a, Apply(cfg, st, step).store.apps[a])
  {
    hide Apply, Indexed;
    AppStep(cfg, st, step, a);
  }

  lemma ReopenPasses(cfg: Config, st: State, step: Step, owner: string, a: AppId)
    requires Base(st) && Allowed(st, step) && Reopens(cfg, st.store, step, a) && st.store.apps[a].owner == owner
    ensures |OpenApps(Apply(cfg, st, step).store.apps, owner)| > |OpenApps(st.store.apps, owner)|
  {
    hide StoreAfter, Allowed, Indexed;
    ReopenedIsOpen(cfg, st.store, step, a);
    hide Reopens;
    SubsetCard(OpenApps(st.store.apps, owner) + {a}, OpenApps(Apply(cfg, st, step).store.apps, owner));
  }

  /** Unless a rejected application is reopened, only creation adds an open application, and it minds the limit. */
  lemma OthersKeepLimit(cfg: Config, st: State, step: Step, owner: string)
    requires Base(st) && Allowed(st, step) && |OpenApps(st.store.apps, owner)| <= cfg.maxOpen
    requires forall a :: Reopens(cfg, st.store, step, a) && st.store.apps[a].owner == owner ==>
                           |OpenApps(st.store.apps, owner)| < cfg.maxOpen
    ensures |OpenApps(Apply(cfg, st, step).store.apps, owner)| <= cfg.maxOpen
  {
    hide Apply, Base, Reopens;
    var open, apps' := OpenApps(st.store.apps, owner), Apply(cfg, st, step).store.apps;
    var open' := OpenApps(apps', owner);
    if b :| b in open' && b !in open {
      OpenGrows(cfg, st, step, owner, b);
      forall a | a in open' && a !in open ensures a == b {
        OpenGrows(cfg, st, step, owner, a);
        OneReopens(cfg, st.store, step, a, b);
      }
      SubsetCard(open', open + {b});
    } else {
      SubsetCard(open', open);
    }
  }

  lemma OneReopens(cfg: Config, s: Store, step: Step, a: AppId, b: AppId)
    ensures Reopens(cfg, s, step, a) && Reopens(cfg, s, step, b) ==> a == b
    ensures step.op.CreateDraft? ==> !Reopens(cfg, s, step, a) && !Reopens(cfg, s, step, b)
  {
  }

  /** A step takes an owner past the limit exactly when it reopens a rejected application at the limit. */
  lemma LimitPassedExactly(cfg: Config, st: State, step: Step, owner: string)
    requires Base(st) && Allowed(st, step) && |OpenApps(st.store.apps, owner)| <= cfg.maxOpen
    ensures |OpenApps(Apply(cfg, st, step).store.apps, owner)| > cfg.maxOpen
            <==> PassesLimit(cfg, st.store, step, owner)
  {
    hide Apply, Base, Allowed, OpenApps;
    if PassesLimit(cfg, st.store, step, owner) {
      var a :| Reopens(cfg, st.store, step, a) && st.store.apps[a].owner == owner;
      ReopenPasses(cfg, st, step, owner, a);
    } else {
      OthersKeepLimit(cfg, st, step, owner);
    }
  }

  /** Statuses that exist without review. */
  predicate Unreviewed(status: Status) {
    status.Draft? || Started(status)
  }

  ghost predicate AllUnreviewed(st: State) {
    forall a :: a in st.store.apps ==> Unreviewed(st.store.apps[a].status)
  }

  lemma UnreviewedStep(cfg: Config, st: State, step: Step)
    requires Base(st) && AllUnreviewed(st) && Allowed(st, step) && !cfg.requireReview
    ensures AllUnreviewed(Apply(cfg, st, step))
  {
    hide Apply, Indexed;
    forall a | a in Apply(cfg, st, step).store.apps ensures Unreviewed(Apply(cfg, st, step).store.apps[a].status) {
      AppStep(cfg, st, step, a);
    }
  }

  /** Without review, no application is ever rejected and no owner passes the limit. */
  lemma {:induction false} OpenLimitHolds(cfg: Config, r: Run, n: nat, owner: string)
    requires ValidRun(cfg, r) && n < |r.states| && !cfg.requireReview && cfg.maxOpen >= 0
    ensures AllUnreviewed(r.states[n]) && |OpenApps(r.states[n].store.apps, owner)| <= cfg.maxOpen
  {
    hide Base, Apply, Allowed, StepAt;
    if n == 0 {
      assert OpenApps(r.states[0].store.apps, owner) == {};
    } else {
      OpenLimitHolds(cfg, r, n - 1, owner);
      At(cfg, r, n - 1);
      hide AllUnreviewed, OpenApps;
      UnreviewedStep(cfg, r.states[n - 1], r.steps[n - 1]);
      LimitPassedExactly(cfg, r.states[n - 1], r.steps[n - 1], owner);
    }
  }

  // ---------------------------------------------------------------- the limit with review

  const ADMIN := Access(Some(true), Some(true))
  const INPUT := DraftInput("n", "d", "", [], [], None)

  function Quiet(op: Op): Step {
    Step(Env(1, {}), op)
  }

  function Creation(id: AppId): Step {
    Quiet(Op.CreateDraft("u", Standing(true), INPUT, true, id, "e"))
  }

  const SUBMISSION := Quiet(Op.Submit("u", Standing(true), "a", "e"))
  const REJECTION := Quiet(Op.Reject("r", ADMIN, "a", "no"))

  predicate Reviewing(cfg: Config) {
    cfg.requireReview && cfg.maxOpen == 1 && cfg.trim("u") == "u" && cfg.trim("no") == "no"
  }

  lemma Creates(cfg: Config, st: State, id: AppId)
    requires Reviewing(cfg) && id !in st.store.apps && OpenApps(st.store.apps, "u") == {}
    ensures var st' := Apply(cfg, st, Creation(id));
            && st'.store.apps == st.store.apps[id := NewDraft(cfg, id, "u", INPUT, 1)]
            && st'.store.outbox == st.store.outbox && st'.issued == st.issued + {id} && st'.clock == 1
  {
  }

  lemma Resubmits(cfg: Config, st: State)
    requires Reviewing(cfg) && "a" in st.store.apps && st.store.apps["a"].owner == "u"
    requires var status := st.store.apps["a"].status; status.Draft? || status.Rejected? || status.ChangesRequested?
    ensures var st' := Apply(cfg, st, SUBMISSION);
            && st'.store.apps == st.store.apps["a" := st.store.apps["a"].(status := PendingReview, updatedAt := 1)]
            && st'.store.outbox == st.store.outbox && st'.issued == st.issued && st'.clock == 1
  {
  }

  lemma Rejects(cfg: Config, st: State)
    requires Reviewing(cfg) && "a" in st.store.apps && st.store.apps["a"].owner == "u"
             && st.store.apps["a"].status.PendingReview?
    ensures var st' := Apply(cfg, st, REJECTION);
            && st'.store.apps == st.store.apps["a" := Reviewed(cfg, st.store.apps["a"], "r", "no", Rejected, 1)]
            && st'.store.outbox == st.store.outbox && st'.issued == st.issued && st'.clock == 1
  {
    assert "r" != "u";
  }

  function RejectedRun(cfg: Config): Run {
    var s0 := Initial(1);
    var s1 := Apply(cfg, s0, Creation("a"));
    var s2 := Apply(cfg, s1, SUBMISSION);
    var s3 := Apply(cfg, s2, REJECTION);
    var s4 := Apply(cfg, s3, Creation("b"));
    Run([s0, s1, s2, s3, s4, Apply(cfg, s4, SUBMISSION)],
        [Creation("a"), SUBMISSION, REJECTION, Creation("b"), SUBMISSION])
  }

  lemma RejectedStates(cfg: Config)
    requires Reviewing(cfg)
    ensures var states := RejectedRun(cfg).states;
            && (forall i :: 0 <= i < 6 ==> states[i].store.outbox.events == map[] && states[i].clock == 1)
            && states[0].issued == {} && states[3].issued == {"a"}
            && OpenApps(states[5].store.apps, "u") == {"a", "b"}
  {
    hide Apply;
    var states := RejectedRun(cfg).states;
    assert OpenApps(map[], "u") == {};
    assert "a" != "b";
    Creates(cfg, states[0], "a");
    Resubmits(cfg, states[1]);
    Rejects(cfg, states[2]);
    assert OpenApps(states[3].store.apps, "u") == {};
    Creates(cfg, states[3], "b");
    Resubmits(cfg, states[4]);
  }

  /** With review on, create, submit, reject, create and resubmit leave two open applications under a limit of one. */
  lemma LimitPassedWithReview(cfg: Config)
    requires Reviewing(cfg)
    ensures ValidRun(cfg, RejectedRun(cfg))
    ensures OpenApps(RejectedRun(cfg).states[5].store.apps, "u") == {"a", "b"}
  {
    hide Apply, OpenApps;
    RejectedStates(cfg);
    assert "a" != "b";
  }

  // ---------------------------------------------------------------- a review attributed to someone else

  const CHANGE_REQUEST := Quiet(Op.RequestChanges("q", ADMIN, "a", "no"))
  const LOST_APPROVAL := Step(Env(1, {SaveCall}), Op.Approve("r", ADMIN, "a", "no", "e"))

  lemma AsksChanges(cfg: Config, st: State)
    requires Reviewing(cfg) && "a" in st.store.apps && st.store.apps["a"].owner == "u"
             && st.store.apps["a"].status.PendingReview?
    ensures var st' := Apply(cfg, st, CHANGE_REQUEST);
            && st'.store.apps == st.store.apps["a" := Reviewed(cfg, st.store.apps["a"], "q", "no", ChangesRequested, 1)]
            && st'.store.outbox == st.store.outbox && st'.issued == st.issued && st'.clock == 1
  {
    assert "q" != "u";
  }

  lemma LosesReview(cfg: Config, st: State)
    requires Reviewing(cfg) && "a" in st.store.apps && st.store.apps["a"].owner == "u"
             && st.store.apps["a"].status.PendingReview?
    ensures Approves(cfg, st.store, LOST_APPROVAL.env, LOST_APPROVAL.op)
    ensures Apply(cfg, st, LOST_APPROVAL).store.apps ==
            st.store.apps["a" := st.store.apps["a"].(status := Provisioning, updatedAt := 1)]
  {
    assert "r" != "u";
  }

  function MisattributedRun(cfg: Config): Run {
    var s0 := Initial(1);
    var s1 := Apply(cfg, s0, Creation("a"));
    var s2 := Apply(cfg, s1, SUBMISSION);
    var s3 := Apply(cfg, s2, CHANGE_REQUEST);
    var s4 := Apply(cfg, s3, SUBMISSION);
    Run([s0, s1, s2, s3, s4, Apply(cfg, s4, LOST_APPROVAL)],
        [Creation("a"), SUBMISSION, CHANGE_REQUEST, SUBMISSION, LOST_APPROVAL])
  }

  lemma MisattributedStates(cfg: Config)
    requires Reviewing(cfg)
    ensures var states := MisattributedRun(cfg).states;
            && (forall i :: 0 <= i < 5 ==> states[i].store.outbox.events == map[] && states[i].clock == 1)
            && states[0].issued == {} && "a" in states[4].store.apps && states[4].store.apps["a"].status.PendingReview?
            && states[4].store.apps["a"].owner == "u" && states[4].store.apps["a"].reviewedBy == "q"
  {
    hide Apply;
    var states := MisattributedRun(cfg).states;
    assert OpenApps(map[], "u") == {};
    Creates(cfg, states[0], "a");
    Resubmits(cfg, states[1]);
    AsksChanges(cfg, states[2]);
    Resubmits(cfg, states[3]);
  }

  /**
   Create, submit, changes asked by q, submit again, approval by r whose Save fails: the application is
   provisioning under the review of q, who approved nothing.
   */
  lemma MisattributedReview(cfg: Config)
    requires Reviewing(cfg)
    ensures var r := MisattributedRun(cfg);
            && ValidRun(cfg, r) && ReviewLost(cfg, r.states[4].store, r.steps[4])
            && "a" in r.states[5].store.apps && r.states[5].store.apps["a"].status.Provisioning?
            && r.states[5].store.apps["a"].reviewedBy == "q" && r.steps[4].op.reviewer == "r"
  {
    hide Apply, Approves;
    MisattributedStates(cfg);
    LosesReview(cfg, MisattributedRun(cfg).states[4]);
  }
}
