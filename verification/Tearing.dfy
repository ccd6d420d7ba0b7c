/**
 Which steps break the agreements of an application.  A step is torn when a dependency fails after the step
 has already changed something that only its remaining part would have brought back into agreement.  A
 client tear loses the client, a content tear leaves client and record with different contents, and a work
 tear leaves the application provisioning without an event.  The worker is never torn, whatever fails, and a
 step on one application never breaks the agreements of another.
 */
module Tearing {
  import opened Common
  import opened Domain
  import opened Hydra
  import opened Protocol
  import opened Lifecycle
  import opened Invariant
  import opened Steps
  import opened Runs

  /** The client is deleted, but the record stays approved. */
  predicate ClientTorn(cfg: Config, s: Store, step: Step, a: AppId) {
    var f := step.env.faults;
    match step.op
    case Revoke(subject, id) => id == a && OwnsApproved(s, f, subject, a) && HydraCall !in f && TransitionCall in f
    case Delete(subject, standing, id) =>
      && id == a && EnsureEligible(cfg, subject, standing).None? && OwnsApproved(s, f, subject, a)
      && HydraCall !in f && (AuditCall in f || RemoveCall in f)
    case _ => false
  }

  /** The client takes a content that differs from the record's, and the record is not saved. */
  predicate ContentTorn(cfg: Config, s: Store, step: Step, a: AppId) {
    var f := step.env.faults;
    match step.op
    case UpdateDraft(_, _, id, input, _, _) =>
      && id == a && EditsRecord(cfg, s, f, step.op) && s.apps[a].status.Approved? && s.apps[a].clientId in s.live
      && HydraCall !in f && SaveCall in f
      && EditedRegistration(cfg, s.apps[a], input) != RegistrationOf(s.apps[a], StandardPolicy)
    case RotateSecret(_, id, _, plaintext, _, _) =>
      && id == a && Rotates(cfg, s, step.env, step.op) && s.apps[a].clientId in s.live
      && (EncryptCall in f || SaveCall in f)
      && s.apps[a].secret.Sealed? && plaintext != s.apps[a].secret.plaintext
    case _ => false
  }

  /** The step writes the application's live client: an edit or a rotation that reaches the remote server. */
  predicate Writes(cfg: Config, s: Store, step: Step, a: AppId) {
    match step.op
    case UpdateDraft(_, _, id, _, _, _) =>
      && id == a && EditsRecord(cfg, s, step.env.faults, step.op) && s.apps[a].status.Approved?
      && s.apps[a].clientId in s.live && HydraCall !in step.env.faults
    case RotateSecret(_, id, _, _, _, _) => id == a && Rotates(cfg, s, step.env, step.op)
      && s.apps[a].clientId in s.live
    case _ => false
  }

  /** The enqueue fails and so does the rollback that should undo the move to Provisioning. */
  predicate EnqueueTorn(f: set<Site>) {
    TransitionCall !in f && EnqueueCall in f && RollbackCall in f
  }

  /** The application enters Provisioning without its event. */
  predicate WorkTorn(cfg: Config, s: Store, step: Step, a: AppId) {
    var f := step.env.faults;
    match step.op
    case CreateDraft(_, _, _, _, id, _) =>
      id == a && CreatesRecord(cfg, s, f, step.op) && CreationAuditCall !in f && !cfg.requireReview && EnqueueTorn(f)
    case Submit(_, _, id, _) => id == a && Submits(cfg, s, f, step.op) && !cfg.requireReview && EnqueueTorn(f)
    case Approve(_, _, id, _, _) => id == a && Approves(cfg, s, step.env, step.op)
      && (SaveCall in f || EnqueueCall in f)
    case _ => false
  }

  predicate Torn(cfg: Config, s: Store, step: Step, a: AppId) {
    ClientTorn(cfg, s, step, a) || ContentTorn(cfg, s, step, a) || WorkTorn(cfg, s, step, a)
  }

  // ---------------------------------------------------------------- steps on other applications

  /** Record, cached credentials and live client of the application are the same in both states. */
  predicate SameView(st: State, st': State, a: AppId) {
    && (a in st.store.apps <==> a in st'.store.apps) && (a in st.store.apps ==> st'.store.apps[a] == st.store.apps[a])
    && (a in st.cache <==> a in st'.cache) && (a in st.cache ==> st'.cache[a] == st.cache[a])
    && (Holds(st, a).Some? ==>
          var c := Holds(st, a).value;
          (c in st.store.live <==> c in st'.store.live)
            && (c in st.store.live ==> st'.store.live[c] == st.store.live[c]))
  }

  lemma ViewKeeps(st: State, st': State, a: AppId)
    requires SameView(st, st', a)
    ensures Present(st', a) <==> Present(st, a)
    ensures Matches(st', a) <==> Matches(st, a)
  {
  }

  /** A call on one application leaves every other as it is; a provisioning one it leaves as it is, too. */
  lemma OpView(cfg: Config, st: State, step: Step, a: AppId)
    requires Base(st) && Allowed(st, step) && !step.op.RunOnce?
    requires a != step.op.id || a in st.cache
    ensures SameView(st, Apply(cfg, st, step), a)
  {
    hide Base, Apply, RecordsOk, Indexed, WorkFits, CacheOwned, NamesApart, NoOrphans;
    Parts(st);
    OpTouches(cfg, st, step);
    AppStep(cfg, st, step, a);
    IssuedKept(cfg, st, step);
    if a in st.cache {
      KnownCached(st, a);
    }
    var b := step.op.id;
    if a != b && Holds(st, a).Some? && IsClientOf(st.store.apps, b, Holds(st, a).value) {
      if b in st.store.apps {
        Known(st, b);
      }
      HeldOnce(st, a, b);
    }
    if a == b && IsClientOf(st.store.apps, b, st.cache[a].id) {
      assert false;
    }
  }

  /** A pass leaves every application but its own as it is. */
  lemma PassView(cfg: Config, st: State, step: Step, a: AppId)
    requires Base(st) && Allowed(st, step) && PassClaims(st, step) && a != PassApp(st, step)
    ensures SameView(st, Apply(cfg, st, step), a)
  {
    hide Base, Apply, RecordsOk, Indexed, WorkFits, CacheOwned, NamesApart, NoOrphans;
    Parts(st);
    PassShape(cfg, st, step);
    if Holds(st, a).Some? {
      HeldOnce(st, a, a);
    }
  }

  // ---------------------------------------------------------------- the worker

  /** Whatever fails inside a pass, the agreements of the application it works on survive. */
  lemma PassKeeps(cfg: Config, st: State, step: Step)
    requires Base(st) && Allowed(st, step) && PassClaims(st, step)
    ensures var a, st' := PassApp(st, step), Apply(cfg, st, step);
            (Present(st, a) ==> Present(st', a)) && (Matches(st, a) ==> Matches(st', a))
  {
    hide Base, Apply, RecordsOk, Indexed, WorkFits, CacheOwned, NamesApart, NoOrphans;
    Parts(st);
    PassShape(cfg, st, step);
    var a := PassApp(st, step);
    if a in st.store.apps {
      Known(st, a);
    }
    if a in st.cache {
      KnownCached(st, a);
    }
  }

  // ---------------------------------------------------------------- calls on the application itself

  predicate ApprovedRecord(st: State, a: AppId) {
    a in st.store.apps && st.store.apps[a].status.Approved?
  }

  /** An application that answers for no client does not begin to outside the worker. */
  lemma UnapprovedKeeps(cfg: Config, st: State, step: Step)
    requires Base(st) && Allowed(st, step) && !step.op.RunOnce?
    requires !ApprovedRecord(st, step.op.id) && step.op.id !in st.cache
    ensures Holds(Apply(cfg, st, step), step.op.id).None?
  {
    hide Base, Apply, RecordsOk, Indexed, WorkFits, CacheOwned, NamesApart, NoOrphans;
    Parts(st);
    AppStep(cfg, st, step, step.op.id);
    IssuedKept(cfg, st, step);
  }

  /** The record's sealed secret opens to the one its live client accepts. */
  predicate SecretLive(st: State, a: AppId) {
    && a in st.store.apps && st.store.apps[a].clientId in st.store.live
    && Open(st.store.apps[a].secret, Binding(a, st.store.apps[a].clientId))
       == Some(st.store.live[st.store.apps[a].clientId].secret)
  }

  function PolicyOf(st: State, a: AppId): TokenPolicy
    requires a in st.store.apps && st.store.apps[a].clientId in st.store.live
  {
    st.store.live[st.store.apps[a].clientId].registration.policy
  }

  /**
   What a write leaves behind, whatever was there before: one content unless it is a content tear, one secret
   unless that tear is a rotation, and the standard token policy only after an edit.
   */
  ghost predicate Written(cfg: Config, st: State, step: Step, st': State, a: AppId) {
    && ApprovedRecord(st', a) && Holds(st', a) == Holds(st, a)
    && Present(st', a) && st'.store.apps[a].clientId in st'.store.live
    && (Matches(st', a) <==> !ContentTorn(cfg, st.store, step, a))
    && (SecretLive(st', a) <==> !(ContentTorn(cfg, st.store, step, a) && step.op.RotateSecret?))
    && (PolicyOf(st', a).NoPolicy? <==> step.op.RotateSecret?)
  }

  /** An edit leaves client and record with one content unless the client took another and the record was not saved. */
  lemma UpdateDraftKeeps(cfg: Config, st: State, step: Step)
    requires Base(st) && Allowed(st, step) && step.op.UpdateDraft? && ApprovedRecord(st, step.op.id)
    ensures var a, st' := step.op.id, Apply(cfg, st, step);
            if Writes(cfg, st.store, step, a) then Written(cfg, st, step, st', a) else SameView(st, st', a)
  {
    hide Base, EnsureEligible;
    Known(st, step.op.id);
    EditShape(cfg, st.store, step);
    hide StoreAfter;
    if Writes(cfg, st.store, step, step.op.id) {
      assert Holds(Apply(cfg, st, step), step.op.id) == Holds(st, step.op.id);
    }
  }

  /** A rotation leaves both with one secret unless the client took a new one that was not stored. */
  lemma RotateSecretKeeps(cfg: Config, st: State, step: Step)
    requires Base(st) && Allowed(st, step) && step.op.RotateSecret? && ApprovedRecord(st, step.op.id)
    ensures var a, st' := step.op.id, Apply(cfg, st, step);
            if Writes(cfg, st.store, step, a) then Written(cfg, st, step, st', a) else SameView(st, st', a)
  {
    hide Base, Confirmed;
    Known(st, step.op.id);
    RotateShape(cfg, st.store, step);
    hide StoreAfter;
    if Writes(cfg, st.store, step, step.op.id) {
      assert Holds(Apply(cfg, st, step), step.op.id) == Holds(st, step.op.id);
    }
  }

  lemma WriteStep(cfg: Config, st: State, step: Step, a: AppId)
    requires Base(st) && Allowed(st, step) && Writes(cfg, st.store, step, a)
    ensures Written(cfg, st, step, Apply(cfg, st, step), a)
  {
    hide Base, Apply, Written, EnsureEligible, Confirmed;
    if step.op.UpdateDraft? {
      UpdateDraftKeeps(cfg, st, step);
    } else {
      RotateSecretKeeps(cfg, st, step);
    }
  }

  /**
   A revocation leaves the application without a client it answers for unless the transition after the deletion fails.
   */
  lemma RevokeKeeps(cfg: Config, st: State, step: Step)
    requires Base(st) && Allowed(st, step) && step.op.Revoke? && ApprovedRecord(st, step.op.id)
    ensures var a, st' := step.op.id, Apply(cfg, st, step);
            && (Present(st, a) ==> (Present(st', a) <==> !ClientTorn(cfg, st.store, step, a)))
            && (Matches(st, a) ==> Matches(st', a))
  {
    Known(st, step.op.id);
    RevokeShape(cfg, st.store, step);
    hide Base, StoreAfter;
  }

  /** A deletion does so unless the audit or the removal after the deletion of the client fails. */
  lemma DeleteKeeps(cfg: Config, st: State, step: Step)
    requires Base(st) && Allowed(st, step) && step.op.Delete? && ApprovedRecord(st, step.op.id)
    ensures var a, st' := step.op.id, Apply(cfg, st, step);
            && (Present(st, a) ==> (Present(st', a) <==> !ClientTorn(cfg, st.store, step, a)))
            && (Matches(st, a) ==> Matches(st', a))
  {
    Known(st, step.op.id);
    DeleteShape(cfg, st.store, step);
    hide Base, StoreAfter, EnsureEligible;
  }

  lemma LocalKeeps(cfg: Config, st: State, step: Step)
    requires Base(st) && Allowed(st, step) && Local(step.op) && ApprovedRecord(st, step.op.id)
    ensures SameView(st, Apply(cfg, st, step), step.op.id)
  {
    Known(st, step.op.id);
    LocalTouches(cfg, st.store, step);
    hide Base, StoreAfter;
  }

  // ---------------------------------------------------------------- one equivalence per agreement

  lemma WriteOrView(cfg: Config, st: State, step: Step)
    requires (step.op.UpdateDraft? || step.op.RotateSecret?) && Allowed(st, step)
    requires Base(st) && ApprovedRecord(st, step.op.id)
    requires var a, st' := step.op.id, Apply(cfg, st, step);
             if Writes(cfg, st.store, step, a) then Written(cfg, st, step, st', a) else SameView(st, st', a)
    ensures var a, st' := step.op.id, Apply(cfg, st, step);
            && (Present(st, a) ==> Present(st', a))
            && (Matches(st, a) ==> (Matches(st', a) <==> !ContentTorn(cfg, st.store, step, a)))
  {
    hide Base, Apply, Present, Matches, SecretLive, EnsureEligible, Confirmed;
    if !Writes(cfg, st.store, step, step.op.id) {
      ViewKeeps(st, Apply(cfg, st, step), step.op.id);
    }
  }

  lemma OwnKeeps(cfg: Config, st: State, step: Step)
    requires Base(st) && Allowed(st, step) && !step.op.RunOnce? && step.op.id !in st.cache
    ensures var a, st' := step.op.id, Apply(cfg, st, step);
            && (Present(st, a) ==> (Present(st', a) <==> !ClientTorn(cfg, st.store, step, a)))
            && (Matches(st, a) ==> (Matches(st', a) <==> !ContentTorn(cfg, st.store, step, a)))
  {
    hide Base, Apply, EnsureEligible, Confirmed;
    var a, st' := step.op.id, Apply(cfg, st, step);
    if !ApprovedRecord(st, a) {
      UnapprovedKeeps(cfg, st, step);
    } else if Local(step.op) {
      LocalKeeps(cfg, st, step);
      ViewKeeps(st, st', a);
    } else {
      hide Present, Matches, SecretLive;
      match step.op {
        case UpdateDraft(_, _, _, _, _, _) =>
          UpdateDraftKeeps(cfg, st, step);
          WriteOrView(cfg, st, step);
        case RotateSecret(_, _, _, _, _, _) =>
          RotateSecretKeeps(cfg, st, step);
          WriteOrView(cfg, st, step);
        case Revoke(_, _) => RevokeKeeps(cfg, st, step);
        case _ => DeleteKeeps(cfg, st, step);
      }
    }
  }

  /**
   What a step does to the agreements about the client of one application, in every reachable state.  A step that
   writes the client decides the agreement on its content, whether there was one before or not.
   */
  lemma ClientStep(cfg: Config, st: State, step: Step, a: AppId)
    requires Base(st) && Allowed(st, step)
    ensures var st' := Apply(cfg, st, step);
            && (Present(st, a) ==> (Present(st', a) <==> !ClientTorn(cfg, st.store, step, a)))
            && (Matches(st, a) || Writes(cfg, st.store, step, a) ==>
                  (Matches(st', a) <==> !ContentTorn(cfg, st.store, step, a)))
  {
    hide Base, Apply, Present, Matches, SecretLive, EnsureEligible, Confirmed;
    var st' := Apply(cfg, st, step);
    if Writes(cfg, st.store, step, a) {
      WriteStep(cfg, st, step, a);
      assert !ClientTorn(cfg, st.store, step, a);
    } else if step.op.RunOnce? {
      if !PassClaims(st, step) {
        PassIdle(cfg, st, step);
        ViewKeeps(st, st', a);
      } else if a == PassApp(st, step) {
        PassKeeps(cfg, st, step);
      } else {
        PassView(cfg, st, step, a);
        ViewKeeps(st, st', a);
      }
    } else if a == step.op.id && a !in st.cache {
      OwnKeeps(cfg, st, step);
    } else {
      OpView(cfg, st, step, a);
      ViewKeeps(st, st', a);
      if a == step.op.id {
        KnownCached(st, a);
      }
    }
  }

  /** While the application stays approved, a step that neither writes nor loses its client changes nothing about it. */
  lemma QuietStep(cfg: Config, st: State, step: Step, a: AppId)
    requires Base(st) && Allowed(st, step) && ApprovedRecord(st, a) && ApprovedRecord(Apply(cfg, st, step), a)
    requires !Writes(cfg, st.store, step, a) && !ClientTorn(cfg, st.store, step, a)
    ensures SameView(st, Apply(cfg, st, step), a)
  {
    hide Base;
    Known(st, a);
    if step.op.RunOnce? {
      QuietPass(cfg, st, step, a);
    } else if a != step.op.id {
      OpView(cfg, st, step, a);
    } else if Local(step.op) {
      LocalKeeps(cfg, st, step);
    } else {
      hide EnsureEligible, Confirmed;
      match step.op {
        case UpdateDraft(_, _, _, _, _, _) =>
          UpdateDraftKeeps(cfg, st, step);
        case RotateSecret(_, _, _, _, _, _) =>
          RotateSecretKeeps(cfg, st, step);
        case Revoke(_, _) =>
          RevokeShape(cfg, st.store, step);
          hide StoreAfter;
        case _ =>
          DeleteShape(cfg, st.store, step);
          hide StoreAfter;
      }
    }
  }

  lemma QuietPass(cfg: Config, st: State, step: Step, a: AppId)
    requires Base(st) && Allowed(st, step) && step.op.RunOnce? && ApprovedRecord(st, a)
    ensures SameView(st, Apply(cfg, st, step), a)
  {
    hide Base, Apply;
    Known(st, a);
    if !PassClaims(st, step) {
      PassIdle(cfg, st, step);
    } else if a != PassApp(st, step) {
      PassView(cfg, st, step, a);
    } else {
      PassShape(cfg, st, step);
    }
  }

  /** The pass that approves an application leaves its client as it was registered. */
  lemma ApprovalStep(cfg: Config, st: State, step: Step, a: AppId)
    requires Base(st) && Allowed(st, step) && !ApprovedRecord(st, a) && ApprovedRecord(Apply(cfg, st, step), a)
    requires Present(st, a) && Matches(st, a)
    ensures var st' := Apply(cfg, st, step);
            Matches(st', a) && SecretLive(st', a) && PolicyOf(st', a).StandardPolicy?
  {
    hide Base, Apply, RecordsOk, Indexed, WorkFits, CacheOwned, NamesApart, NoOrphans;
    Parts(st);
    AppStep(cfg, st, step, a);
    if a in st.store.apps {
      Known(st, a);
    }
    if PassClaims(st, step) {
      PassShape(cfg, st, step);
      hide AppFate;
    } else if step.op.RunOnce? {
      PassIdle(cfg, st, step);
    }
  }

  // ---------------------------------------------------------------- work

  /** Starting provisioning leaves a draft provisioning without an event exactly when enqueue and rollback both fail. */
  lemma StartKeeps(s: Store, env: Env, subject: string, a: AppId, eventId: EventId)
    requires a in s.apps && s.apps[a].id == a && s.apps[a].status.Draft? && !Queued(s.outbox, a)
    ensures var s' := StartProvisioning(s, env, subject, s.apps[a], eventId).store;
            && a in s'.apps
            && (s'.apps[a].status.Provisioning? && !Queued(s'.outbox, a) <==> EnqueueTorn(env.faults))
  {
  }

  lemma CreateStarts(cfg: Config, s: Store, step: Step)
    requires step.op.CreateDraft? && step.op.id !in s.apps && !Queued(s.outbox, step.op.id)
    ensures var s', a := StoreAfter(cfg, s, step), step.op.id;
            a in s'.apps && s'.apps[a].status.Provisioning? && !Queued(s'.outbox, a) <==> WorkTorn(cfg, s, step, a)
  {
    hide EnsureEligible, StartProvisioning;
    var op, env := step.op, step.env;
    var app := NewDraft(cfg, op.id, op.subject, op.input, env.now);
    StartKeeps(Logged(s.(apps := s.apps[op.id := app]), env, op.subject, AppCreated, op.id), env, op.subject, op.id,
               op.eventId);
  }

  lemma SubmitStarts(cfg: Config, s: Store, step: Step)
    requires step.op.Submit? && step.op.id in s.apps && s.apps[step.op.id].id == step.op.id
    requires !Started(s.apps[step.op.id].status) && !Queued(s.outbox, step.op.id)
    ensures var s', a := StoreAfter(cfg, s, step), step.op.id;
            a in s'.apps && s'.apps[a].status.Provisioning? && !Queued(s'.outbox, a) <==> WorkTorn(cfg, s, step, a)
  {
    hide EnsureEligible, StartProvisioning;
    var op, env := step.op, step.env;
    var app := s.apps[op.id];
    if app.status.Draft? {
      StartKeeps(s, env, op.subject, op.id, op.eventId);
    } else {
      var draft := app.(status := Draft, updatedAt := env.now);
      StartKeeps(s.(apps := s.apps[op.id := draft]), env, op.subject, op.id, op.eventId);
    }
  }

  /** An approval leaves the application without an event exactly when the save or the enqueue fails. */
  lemma ApproveKeeps(cfg: Config, s: Store, step: Step)
    requires step.op.Approve? && step.op.id in s.apps && !Started(s.apps[step.op.id].status)
             && !Queued(s.outbox, step.op.id)
    ensures var s', a := StoreAfter(cfg, s, step), step.op.id;
            a in s'.apps && s'.apps[a].status.Provisioning? && !Queued(s'.outbox, a) <==> WorkTorn(cfg, s, step, a)
  {
    hide PrepareReview;
  }

  /** Provisioning without an event, which no later step can bring. */
  predicate Stranded(st: State, a: AppId) {
    a in st.store.apps && st.store.apps[a].status.Provisioning? && !Queued(st.store.outbox, a)
  }

  lemma FreshStrands(cfg: Config, st: State, step: Step, a: AppId)
    requires Base(st) && Allowed(st, step) && !step.op.RunOnce?
    requires a in st.store.apps ==> !Started(st.store.apps[a].status)
    ensures Stranded(Apply(cfg, st, step), a) <==> WorkTorn(cfg, st.store, step, a)
  {
    if a in st.store.apps {
      Known(st, a);
    } else if a !in st.issued {
      NotIssued(st, a);
    }
    Parts(st);
    AppStep(cfg, st, step, a);
    assert Apply(cfg, st, step).store == StoreAfter(cfg, st.store, step);
    hide Base, Apply, StoreAfter, RecordsOk, Indexed, WorkFits, CacheOwned, NamesApart, NoOrphans;
    if step.op.id == a {
      if step.op.CreateDraft? {
        CreateStarts(cfg, st.store, step);
      } else if step.op.Submit? && a in st.store.apps {
        SubmitStarts(cfg, st.store, step);
      } else if step.op.Approve? && a in st.store.apps {
        ApproveKeeps(cfg, st.store, step);
      }
    }
  }

  /** A pass strands no one, and works on no stranded application, as there is no event to claim. */
  lemma PassStrands(cfg: Config, st: State, step: Step, a: AppId)
    requires Base(st) && Allowed(st, step) && step.op.RunOnce?
    ensures Stranded(Apply(cfg, st, step), a) <==> Stranded(st, a)
  {
    hide Base, Apply;
    if PassClaims(st, step) {
      PassShape(cfg, st, step);
      KnownEvent(st, step.op.choice.value);
    } else {
      PassIdle(cfg, st, step);
    }
  }

  lemma StartedStrands(cfg: Config, st: State, step: Step, a: AppId)
    requires Base(st) && Allowed(st, step) && !step.op.RunOnce? && a in st.store.apps
             && Started(st.store.apps[a].status)
    ensures Stranded(Apply(cfg, st, step), a) <==> Stranded(st, a)
  {
    hide Base, Apply, RecordsOk, Indexed, WorkFits, CacheOwned, NamesApart, NoOrphans;
    Parts(st);
    Known(st, a);
    AppStep(cfg, st, step, a);
    EventStep(cfg, st, step, "");
  }

  /** An application is stranded after a step exactly when it was before or the step is a work tear of it. */
  lemma StrandedStep(cfg: Config, st: State, step: Step, a: AppId)
    requires Base(st) && Allowed(st, step)
    ensures Stranded(Apply(cfg, st, step), a) <==> Stranded(st, a) || WorkTorn(cfg, st.store, step, a)
  {
    hide Base, Apply, EnsureEligible;
    if step.op.RunOnce? {
      PassStrands(cfg, st, step, a);
    } else if a in st.store.apps && Started(st.store.apps[a].status) {
      StartedStrands(cfg, st, step, a);
    } else {
      FreshStrands(cfg, st, step, a);
    }
  }

  /** Work is supplied exactly when the application is not stranded. */
  lemma SuppliedExactly(st: State, a: AppId)
    requires Base(st)
    ensures Supplied(st, a) <==> !Stranded(st, a)
  {
    if a in st.store.apps {
      Known(st, a);
    }
  }

  // ---------------------------------------------------------------- the invariant as a whole

  /** A step keeps the whole invariant exactly when it is torn on no application. */
  lemma StepKeeps(cfg: Config, st: State, step: Step)
    requires Inv(st) && Allowed(st, step)
    ensures Inv(Apply(cfg, st, step)) <==> forall a :: !Torn(cfg, st.store, step, a)
  {
    StepBase(cfg, st, step);
    var st' := Apply(cfg, st, step);
    hide Base, Apply, Present, Matches, Supplied, Stranded, ClientTorn, ContentTorn, WorkTorn;
    forall a: AppId
      ensures Present(st', a) && Matches(st', a) && Supplied(st', a) <==> !Torn(cfg, st.store, step, a)
    {
      assert Present(st, a) && Matches(st, a) && Supplied(st, a);
      ClientStep(cfg, st, step, a);
      StrandedStep(cfg, st, step, a);
      SuppliedExactly(st, a);
      SuppliedExactly(st', a);
    }
  }

  /** A worker pass is never torn, whatever fails in it. */
  lemma RunOnceKeeps(cfg: Config, st: State, step: Step)
    requires Inv(st) && Allowed(st, step) && step.op.RunOnce?
    ensures Inv(Apply(cfg, st, step))
  {
    hide Inv, Apply;
    StepKeeps(cfg, st, step);
  }

  // ---------------------------------------------------------------- recovery

  /** A client that is gone never comes back: it is missed exactly as long as the record stays approved. */
  lemma MissingStays(cfg: Config, st: State, step: Step, a: AppId)
    requires Base(st) && Allowed(st, step) && !Present(st, a) && ApprovedRecord(st, a)
    ensures Present(Apply(cfg, st, step), a) <==> !ApprovedRecord(Apply(cfg, st, step), a)
  {
    hide Base, Apply, RecordsOk, Indexed, WorkFits, NoOrphans;
    Parts(st);
    Known(st, a);
    HeldOnce(st, a, a);
    AppStep(cfg, st, step, a);
    IssuedKept(cfg, st, step);
    if !step.op.RunOnce? {
      OpTouches(cfg, st, step);
    } else if PassClaims(st, step) {
      PassShape(cfg, st, step);
    } else {
      PassIdle(cfg, st, step);
    }
  }

  /** The call updates the client and stores what it sent. */
  predicate Resends(cfg: Config, s: Store, step: Step, a: AppId) {
    var f := step.env.faults;
    match step.op
    case UpdateDraft(_, _, id, _, _, _) =>
      && id == a && EditsRecord(cfg, s, f, step.op) && s.apps[a].status.Approved? && s.apps[a].clientId in s.live
      && HydraCall !in f && SaveCall !in f
    case RotateSecret(_, id, _, _, _, _) =>
      && id == a && Rotates(cfg, s, step.env, step.op) && s.apps[a].clientId in s.live
      && EncryptCall !in f && SaveCall !in f
    case _ => false
  }

  /** A later edit or rotation that goes through mends whatever a content tear left behind. */
  lemma ResendMends(cfg: Config, st: State, step: Step, a: AppId)
    requires Base(st) && Allowed(st, step) && Resends(cfg, st.store, step, a)
    ensures Matches(Apply(cfg, st, step), a)
  {
    hide Base, Apply, Matches, SecretLive, EnsureEligible, Confirmed;
    WriteStep(cfg, st, step, a);
  }
}
