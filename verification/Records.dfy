/** Who can change what in a stored record, over whole runs. */
module Records {
  import opened Common
  import opened Domain
  import P = Protocol
  import opened Protocol
  import opened Lifecycle
  import opened Invariant
  import opened Steps
  import opened Runs
  import opened Effects

  /** The fields an owner describes the application by, and its creation date. */
  predicate SameDescription(a: Application, b: Application) {
    && a.name == b.name && a.description == b.description && a.logo == b.logo && a.callbacks == b.callbacks
    && a.domains == b.domains && a.requirePKCENonce == b.requirePKCENonce && a.createdAt == b.createdAt
  }

  /** The owner, allowed to manage applications, saves an edit of the record. */
  predicate SavesEdit(cfg: Config, s: Store, step: Step, a: AppId) {
    && step.op.UpdateDraft? && step.op.id == a && MayManage(cfg, step.op.subject, step.op.standing)
    && Owns(s, step.env.faults, step.op.subject, a) && step.op.inputValid && SaveCall !in step.env.faults
  }

  lemma EditFields(cfg: Config, st: State, step: Step)
    requires step.op.UpdateDraft? && step.op.id in st.store.apps && step.op.id in Apply(cfg, st, step).store.apps
    ensures var before, after := st.store.apps[step.op.id], Apply(cfg, st, step).store.apps[step.op.id];
            || after == before
            || (SavesEdit(cfg, st.store, step, step.op.id) && after == EditOf(cfg, before, step.op.input, step.env.now))
  {
    var op := step.op;
    UpdateDraftExactly(cfg, st.store, step.env, op.subject, op.standing, op.id, op.input, op.inputValid, op.echo);
    hide P.UpdateDraft, EditOf;
  }

  lemma SubmitFields(cfg: Config, st: State, step: Step)
    requires step.op.Submit? && step.op.id in st.store.apps && step.op.id in Apply(cfg, st, step).store.apps
    requires st.store.apps[step.op.id].id == step.op.id
    ensures SameDescription(st.store.apps[step.op.id], Apply(cfg, st, step).store.apps[step.op.id])
  {
    var op, s, env := step.op, st.store, step.env;
    SubmitExactly(cfg, s, env, op.subject, op.standing, op.id, op.eventId);
    hide P.Submit, MayManage;
    var app := s.apps[op.id];
    var draft := app.(status := Draft, updatedAt := env.now);
    StartExactly(s.(apps := s.apps[op.id := draft]), env, op.subject, draft, op.eventId);
    if app.status.Draft? {
      assert s.apps == s.apps[op.id := app];
      StartExactly(s.(apps := s.apps[op.id := app]), env, op.subject, app, op.eventId);
    }
    hide StartProvisioning;
  }

  lemma OtherFields(cfg: Config, st: State, step: Step)
    requires !step.op.RunOnce? && !step.op.CreateDraft? && !step.op.UpdateDraft? && !step.op.Submit?
    requires step.op.id in st.store.apps && step.op.id in Apply(cfg, st, step).store.apps
    ensures SameDescription(st.store.apps[step.op.id], Apply(cfg, st, step).store.apps[step.op.id])
  {
    var op, s, env := step.op, st.store, step.env;
    match op
    case ViewSecret(_, _, _) =>
      ViewSecretExactly(cfg, s, env, op.subject, op.id, op.confirmedAt);
      hide P.ViewSecret;
    case RotateSecret(_, _, _, _, _, _) =>
      RotateSecretExactly(cfg, s, env, op.subject, op.id, op.confirmedAt, op.plaintext, op.nonce, op.echo);
      hide P.RotateSecret;
    case Revoke(_, _) =>
      RevokeExactly(s, env, op.subject, op.id);
      hide P.Revoke;
    case Delete(_, _, _) =>
      DeleteExactly(cfg, s, env, op.subject, op.standing, op.id);
      hide P.Delete;
    case Approve(_, _, _, _, _) =>
      ApproveExactly(cfg, s, env, op.reviewer, op.access, op.id, op.reason, op.eventId);
      hide P.Approve, Reviewable;
    case Reject(_, _, _, _) =>
      DecideExactly(cfg, s, env, op.reviewer, op.access, op.id, op.reason, Rejected, AppRejected);
      hide Decide, Reviewable;
    case RequestChanges(_, _, _, _) =>
      DecideExactly(cfg, s, env, op.reviewer, op.access, op.id, op.reason, ChangesRequested, ChangesAsked);
      hide Decide, Reviewable;
  }

  lemma PassFields(cfg: Config, st: State, step: Step, a: AppId)
    requires Base(st) && Allowed(st, step) && step.op.RunOnce?
    requires a in st.store.apps && a in Apply(cfg, st, step).store.apps
    ensures SameDescription(st.store.apps[a], Apply(cfg, st, step).store.apps[a])
  {
    hide Base;
    if PassClaims(st, step) {
      var op := step.op;
      RunOnceExactly(cfg, st.store, step.env, st.cache, op.choice.value, op.grant, op.nonce);
      hide P.RunOnce;
    } else {
      PassIdle(cfg, st, step);
    }
  }

  /** In every reachable state, a step changes the description of a stored record only as an edit saved by its owner. */
  lemma DescriptionStep(cfg: Config, st: State, step: Step, a: AppId)
    requires Base(st) && Allowed(st, step) && a in st.store.apps && a in Apply(cfg, st, step).store.apps
    ensures var before, after := st.store.apps[a], Apply(cfg, st, step).store.apps[a];
            || SameDescription(before, after)
            || (SavesEdit(cfg, st.store, step, a) && after == EditOf(cfg, before, step.op.input, step.env.now))
  {
    hide Base, Apply, SameDescription, SavesEdit, EditOf;
    Parts(st);
    if step.op.RunOnce? {
      PassFields(cfg, st, step, a);
    } else if a != step.op.id {
      OpTouches(cfg, st, step);
      SameFields(st.store.apps[a]);
    } else if step.op.UpdateDraft? {
      EditFields(cfg, st, step);
      SameFields(st.store.apps[a]);
    } else if step.op.Submit? {
      Known(st, a);
      SubmitFields(cfg, st, step);
    } else if !step.op.CreateDraft? {
      OtherFields(cfg, st, step);
    } else {
      Known(st, a);
    }
  }

  lemma SameFields(app: Application)
    ensures SameDescription(app, app)
  {
  }

  ghost predicate EditedAt(cfg: Config, r: Run, i: int, a: AppId)
    requires 0 <= i < |r.steps| < |r.states|
  {
    SavesEdit(cfg, r.states[i].store, r.steps[i], a)
  }

  lemma SameTrans(a: Application, b: Application, c: Application)
    requires SameDescription(a, b) && SameDescription(b, c)
    ensures SameDescription(a, c)
  {
  }

  lemma DescriptionAt(cfg: Config, r: Run, m: nat, a: AppId)
    requires ValidRun(cfg, r) && m < |r.steps| && Stored(r, m, a) && Stored(r, m + 1, a) && !EditedAt(cfg, r, m, a)
    ensures SameDescription(r.states[m].store.apps[a], r.states[m + 1].store.apps[a])
  {
    hide Base, Apply, Allowed, SavesEdit, SameDescription;
    At(cfg, r, m);
    DescriptionStep(cfg, r.states[m], r.steps[m], a);
  }

  /**
   In every run a record's name, description, logo, addresses, domains and PKCE flag stay until the owner's next saved
   edit.
   */
  lemma {:induction false} DescriptionKept(cfg: Config, r: Run, k: nat, n: nat, a: AppId)
    requires ValidRun(cfg, r) && k <= n < |r.states| && Stored(r, k, a) && Stored(r, n, a)
    requires forall i :: k <= i < n ==> !EditedAt(cfg, r, i, a)
    ensures SameDescription(r.states[k].store.apps[a], r.states[n].store.apps[a])
  {
    if k == n {
      SameFields(r.states[k].store.apps[a]);
    } else {
      assert |r.states| == |r.steps| + 1;
      hide ValidRun, EditedAt, SameDescription;
      StillStored(cfg, r, k, n - 1, n, a);
      DescriptionKept(cfg, r, k, n - 1, a);
      DescriptionAt(cfg, r, n - 1, a);
      SameTrans(r.states[k].store.apps[a], r.states[n - 1].store.apps[a], r.states[n].store.apps[a]);
    }
  }

  /** A record that appears is the draft its owner described, or that draft already provisioning. */
  lemma BornAsDescribed(cfg: Config, st: State, step: Step, a: AppId)
    requires Base(st) && Allowed(st, step) && a !in st.store.apps && a in Apply(cfg, st, step).store.apps
    ensures step.op.CreateDraft? && step.op.id == a && MayManage(cfg, step.op.subject, step.op.standing)
    ensures var draft, after := DraftOf(cfg, a, step.op.subject, step.op.input, step.env.now),
            Apply(cfg, st, step).store.apps[a];
            after == draft || (after == draft.(status := Provisioning) && !cfg.requireReview)
  {
    hide Base;
    Parts(st);
    AppStep(cfg, st, step, a);
    hide RecordsOk;
    var op, s, env := step.op, st.store, step.env;
    if op.CreateDraft? {
      CreateDraftExactly(cfg, s, env, op.subject, op.standing, op.input, op.inputValid, op.id, op.eventId);
      var draft := DraftOf(cfg, op.id, op.subject, op.input, env.now);
      var audit := s.audit + [AuditEvent(op.subject, AppCreated, op.id, env.now)];
      StartExactly(s.(apps := s.apps[op.id := draft], audit := audit), env, op.subject, draft, op.eventId);
      hide P.CreateDraft, StartProvisioning;
    }
  }
}
