/** What one step can do to each record, each event and the cache, torn or not. */
module Steps {
  import opened Common
  import opened Domain
  import opened Repositories
  import opened Hydra
  import P = Protocol
  import opened Protocol
  import opened Lifecycle
  import opened Invariant

  // ---------------------------------------------------------------- guards: how far a call gets

  predicate CreatesRecord(cfg: Config, s: Store, f: set<Site>, op: Op)
    requires op.CreateDraft?
  {
    && EnsureEligible(cfg, op.subject, op.standing).None? && op.inputValid
       && |OpenApps(s.apps, op.subject)| < cfg.maxOpen
    && CountCall !in f && RandomCall !in f && CreateCall !in f && op.id !in s.apps
  }

  predicate EditsRecord(cfg: Config, s: Store, f: set<Site>, op: Op)
    requires op.UpdateDraft?
  {
    && EnsureEligible(cfg, op.subject, op.standing).None? && op.inputValid
    && LoadCall !in f && op.id in s.apps && s.apps[op.id].owner == op.subject && Editable(s.apps[op.id].status)
  }

  predicate Submits(cfg: Config, s: Store, f: set<Site>, op: Op)
    requires op.Submit?
  {
    && EnsureEligible(cfg, op.subject, op.standing).None?
    && LoadCall !in f && op.id in s.apps && s.apps[op.id].owner == op.subject
    && (s.apps[op.id].status.Draft? ||
        (ReopenCall !in f && (s.apps[op.id].status.ChangesRequested? || s.apps[op.id].status.Rejected?)))
  }

  predicate OwnsApproved(s: Store, f: set<Site>, subject: string, id: AppId) {
    LoadCall !in f && id in s.apps && s.apps[id].owner == subject && s.apps[id].status.Approved?
  }

  predicate Rotates(cfg: Config, s: Store, env: Env, op: Op)
    requires op.RotateSecret?
  {
    && OwnsApproved(s, env.faults, op.subject, op.id) && Confirmed(cfg, op.confirmedAt, env.now)
    && RandomCall !in env.faults && HydraCall !in env.faults
  }

  predicate Approves(cfg: Config, s: Store, env: Env, op: Op)
    requires op.Approve?
  {
    && PrepareReview(cfg, s, env, op.reviewer, op.access, op.id, op.reason).None?
    && ReloadCall !in env.faults && TransitionCall !in env.faults
  }

  // ---------------------------------------------------------------- records

  /** The status changes a single step can make, the two-edge ones of Submit included. */
  predicate Moves(from: Status, to: Status) {
    match from
    case Draft => to.PendingReview? || to.Provisioning?
    case PendingReview => to.Provisioning? || to.Rejected? || to.ChangesRequested?
    case Rejected => to.Draft? || to.PendingReview? || to.Provisioning?
    case ChangesRequested => to.Draft? || to.PendingReview? || to.Provisioning?
    case Provisioning => to.Approved?
    case Approved => to.Revoked?
    case Revoked => false
  }

  lemma MovesLead(from: Status, to: Status)
    requires from == to || Moves(from, to)
    ensures Leads(from, to)
  {
    if from == to {
      LeadsRefl(from);
    } else if ValidTransition(from, to) {
      LeadsEdge(from, to);
    } else {
      LeadsEdge(from, Draft);
      LeadsEdge(Draft, to);
      LeadsTrans(from, Draft, to);
    }
  }

  /** The step writes a rotated secret into the record. */
  predicate SavesRotation(cfg: Config, s: Store, step: Step, a: AppId) {
    && step.op.RotateSecret? && step.op.id == a
    && Rotates(cfg, s, step.env, step.op) && s.apps[a].clientId != "" && s.apps[a].clientId in s.live
    && EncryptCall !in step.env.faults && SaveCall !in step.env.faults
  }

  /** How an application may enter Provisioning: on submission without review, or by an approval. */
  predicate Launch(cfg: Config, s: Store, step: Step, a: AppId, after: Application) {
    after.status.Provisioning? &&
    if cfg.requireReview then
      && step.op.Approve? && step.op.id == a && Approves(cfg, s, step.env, step.op)
      && (SaveCall !in step.env.faults ==> after == Reviewed(cfg, s.apps[a], step.op.reviewer, step.op.reason,
                                                             Provisioning, step.env.now))
    else
      (step.op.Submit? || step.op.Approve?) && step.op.id == a
  }

  /** A submission or an edit takes a rejected application back into the lifecycle. */
  predicate Reopens(cfg: Config, s: Store, step: Step, a: AppId) {
    && (|| (step.op.Submit? && step.op.id == a && Submits(cfg, s, step.env.faults, step.op))
        || (step.op.UpdateDraft? && step.op.id == a && EditsRecord(cfg, s, step.env.faults, step.op)
            && SaveCall !in step.env.faults))
    && s.apps[a].status.Rejected?
  }

  predicate RecordStep(cfg: Config, s: Store, step: Step, a: AppId, after: Application)
    requires a in s.apps
  {
    var before := s.apps[a];
    && after.id == before.id && after.owner == before.owner
    && (after.status == before.status || Moves(before.status, after.status))
    && (if before.status.Provisioning? && after.status.Approved?
        then
          && step.op.RunOnce? && after.clientId != "" && after.secretVersion == 1
          && after == before.(clientId := after.clientId, secret := after.secret, secretVersion := 1,
                              status := Approved, updatedAt := step.env.now)
          && after.secret.Sealed? && after.secret.binding == Binding(after.id, after.clientId)
        else
          && after.clientId == before.clientId && (after.secret.Sealed? <==> before.secret.Sealed?)
          && (after.secret.Sealed? ==> after.secret.binding == before.secret.binding)
          && after.secretVersion == before.secretVersion + if step.op.RotateSecret? && SavesRotation(cfg, s, step, a)
             then 1 else 0)
    && (Started(before.status) ==> after.reviewedBy == before.reviewedBy && after.reviewNote == before.reviewNote)
    && (before.status.Provisioning? && after.status.Provisioning? ==> after == before)
    && (!Started(before.status) && Started(after.status) ==> Launch(cfg, s, step, a, after))
    && (after.status.PendingReview? && !before.status.PendingReview? ==> cfg.requireReview)
    && (before.status.Rejected? && after.status != before.status ==> Reopens(cfg, s, step, a))
  }

  /** A record that appears is a fresh draft, which without review may already be provisioning. */
  predicate Born(cfg: Config, s: Store, step: Step, a: AppId, after: Application) {
    && step.op.CreateDraft? && step.op.id == a && CreatesRecord(cfg, s, step.env.faults, step.op)
    && after.id == a && after.owner == step.op.subject
    && (after.status.Draft? || (after.status.Provisioning? && !cfg.requireReview))
    && after.clientId == "" && after.secret.NoCiphertext? && after.secretVersion == 0
  }

  predicate AppFate(cfg: Config, s: Store, step: Step, apps': Apps, a: AppId) {
    if a in s.apps then
      if a in apps' then RecordStep(cfg, s, step, a, apps'[a])
      else step.op.Delete? && step.op.id == a && !s.apps[a].status.Provisioning?
    else a in apps' ==> Born(cfg, s, step, a, apps'[a])
  }

  lemma StartFate(cfg: Config, s: Store, env: Env, subject: string, id: AppId, eventId: EventId, a: AppId)
    requires id in s.apps && s.apps[id].id == id && s.apps[id].status.Draft?
    ensures var apps' := StartProvisioning(s, env, subject, s.apps[id], eventId).store.apps;
            && apps'.Keys == s.apps.Keys
            && (a in s.apps && a != id ==> apps'[a] == s.apps[a])
            && (apps'[id] == s.apps[id] || apps'[id] == s.apps[id].(updatedAt := env.now)
                || apps'[id] == s.apps[id].(status := Provisioning, updatedAt := env.now))
  {
  }

  predicate Complete(c: Credentials) {
    c.id != "" && c.secret != ""
  }

  /** Conclude either approves the record and forgets the credentials, or gives the event back and changes neither. */
  lemma ConcludeShape(cfg: Config, s: Store, env: Env, e: EventId, id: AppId, c: Credentials, cache: Cache,
                      nonce: string)
    requires id in s.apps
    ensures Conclude(cfg, s, env, e, id, c, cache, nonce).store.live == s.live
    ensures var w := Conclude(cfg, s, env, e, id, c, cache, nonce);
            if Complete(c) && EncryptCall !in env.faults && SaveCall !in env.faults
            then
              && w.cache == cache - {id} && w.store.apps == s.apps[id := ApprovedWith(s.apps[id], c, nonce, env.now)]
              && w.store.outbox == if CompleteCall in env.faults then s.outbox else Completed(s.outbox, e, env.now)
            else
              && w.cache == cache && w.store.apps == s.apps
              && w.store.outbox == if RetryCall in env.faults then s.outbox
                 else Retried(s.outbox, e, env.now + cfg.retryDelay)
  {
  }

  /** The pass over this event reaches the point where the application's credentials are known. */
  predicate Reaches(s: Store, f: set<Site>, id: AppId, cache: Cache) {
    LoadCall !in f && id in s.apps && s.apps[id].status.Provisioning? && (id in cache || HydraCall !in f)
  }

  predicate Skips(s: Store, f: set<Site>, id: AppId) {
    LoadCall !in f && id in s.apps && !s.apps[id].status.Provisioning?
  }

  function CredentialsOf(cache: Cache, id: AppId, grant: Credentials): Credentials {
    if id in cache then cache[id] else grant
  }

  /** The pass saves the approved record. */
  predicate Saves(s: Store, f: set<Site>, id: AppId, cache: Cache, grant: Credentials) {
    Reaches(s, f, id, cache) && Complete(CredentialsOf(cache, id, grant)) && EncryptCall !in f && SaveCall !in f
  }

  /** Records, cache and outbox after the handling of a claimed provisioning event, in closed form. */
  lemma HandleShape(cfg: Config, s: Store, env: Env, e: EventId, cache: Cache, grant: Credentials, nonce: string)
    requires e in s.outbox.events && s.outbox.events[e].kind.ProvisionApplication?
    ensures var w, id, f := Handle(cfg, s, env, e, cache, grant, nonce), s.outbox.events[e].app, env.faults;
            var c := CredentialsOf(cache, id, grant);
            && w.store.apps == (if Saves(s, f, id, cache, grant)
                                then s.apps[id := ApprovedWith(s.apps[id], c, nonce, env.now)] else s.apps)
            && w.store.live == (if Reaches(s, f, id, cache) && id !in cache
                                then s.live[grant.id := Client(RegistrationOf(s.apps[id], StandardPolicy),
                                                               grant.secret)] else s.live)
            && w.cache == (if Saves(s, f, id, cache, grant) || Skips(s, f, id) then cache - {id}
                           else if Reaches(s, f, id, cache) then cache[id := c] else cache)
            && w.store.outbox == (if Saves(s, f, id, cache, grant) || Skips(s, f, id)
                                  then if CompleteCall in f then s.outbox else Completed(s.outbox, e, env.now)
                                  else if RetryCall in f then s.outbox
                                    else Retried(s.outbox, e, env.now + cfg.retryDelay))
  {
    hide Conclude;
    var id := s.outbox.events[e].app;
    if Reaches(s, env.faults, id, cache) {
      var c := CredentialsOf(cache, id, grant);
      assert cache[id := c] - {id} == cache - {id};
      if id in cache {
        assert cache == cache[id := c];
        ConcludeShape(cfg, s, env, e, id, c, cache, nonce);
      } else {
        var s1 := s.(live := s.live[grant.id := Client(RegistrationOf(s.apps[id], StandardPolicy), grant.secret)]);
        ConcludeShape(cfg, s1, env, e, id, c, cache[id := c], nonce);
      }
    }
  }

  lemma WorkerFate(cfg: Config, s: Store, env: Env, cache: Cache, e: EventId, grant: Credentials, nonce: string,
                   a: AppId)
    requires e in s.outbox.events
    ensures var apps' := Handle(cfg, s, env, e, cache, grant, nonce).store.apps;
            && (a in s.apps <==> a in apps')
            && (a in s.apps ==>
                  apps'[a] == s.apps[a] ||
                  (s.apps[a].status.Provisioning? &&
                   exists c: Credentials :: c.id != "" && apps'[a] == ApprovedWith(s.apps[a], c, nonce, env.now)))
  {
    if s.outbox.events[e].kind.ProvisionApplication? {
      HandleShape(cfg, s, env, e, cache, grant, nonce);
      hide Handle;
    }
  }

  predicate Sane(s: Store, step: Step, a: AppId) {
    && (a in s.apps ==> RecordOk(a, s.apps[a]))
    && (!step.op.RunOnce? && step.op.id in s.apps ==> RecordOk(step.op.id, s.apps[step.op.id]))
  }

  lemma SameFate(cfg: Config, s: Store, step: Step, a: AppId)
    requires !step.op.RotateSecret? || step.op.id != a
    ensures AppFate(cfg, s, step, s.apps, a)
  {
  }

  lemma CreateFate(cfg: Config, st: State, step: Step, a: AppId)
    requires step.op.CreateDraft? && Allowed(st, step) && step.op.id !in st.store.apps && Sane(st.store, step, a)
    ensures AppFate(cfg, st.store, step,
                    P.CreateDraft(cfg, st.store, step.env, step.op.subject, step.op.standing, step.op.input,
                                  step.op.inputValid, step.op.id, step.op.eventId).store.apps, a)
  {
    hide EnsureEligible, StartProvisioning, SavesRotation;
    var s, op, env := st.store, step.op, step.env;
    if CreatesRecord(cfg, s, env.faults, op) && CreationAuditCall !in env.faults && !cfg.requireReview {
      var app := NewDraft(cfg, op.id, op.subject, op.input, env.now);
      StartFate(cfg, Logged(s.(apps := s.apps[op.id := app]), env, op.subject, AppCreated, op.id), env, op.subject,
                op.id, op.eventId, a);
    }
  }

  /** The draft a submission starts from. */
  function Resubmitted(app: Application, now: Time): Application {
    if app.status.ChangesRequested? || app.status.Rejected? then app.(status := Draft, updatedAt := now) else app
  }

  /** A submission that gets past its checks reopens the record and submits or starts it; any other changes nothing. */
  lemma SubmitShape(cfg: Config, s: Store, step: Step)
    requires step.op.Submit?
    ensures var s', op, env := StoreAfter(cfg, s, step), step.op, step.env;
            if !Submits(cfg, s, env.faults, op) then s' == s
            else
              var draft := Resubmitted(s.apps[op.id], env.now);
              var s1 := s.(apps := s.apps[op.id := draft]);
              if !cfg.requireReview then s' == StartProvisioning(s1, env, op.subject, draft, op.eventId).store
              else
                && s'.live == s.live && s'.outbox == s.outbox
                && s'.apps == if TransitionCall in env.faults then s1.apps
                              else s.apps[op.id := draft.(status := PendingReview, updatedAt := env.now)]
  {
    hide EnsureEligible, StartProvisioning;
    assert step.op.id in s.apps ==> s.apps == s.apps[step.op.id := s.apps[step.op.id]];
  }

  lemma SubmitFate(cfg: Config, st: State, step: Step, a: AppId)
    requires step.op.Submit? && Sane(st.store, step, a)
    ensures AppFate(cfg, st.store, step, StoreAfter(cfg, st.store, step).apps, a)
  {
    hide EnsureEligible, StartProvisioning, SavesRotation;
    SubmitShape(cfg, st.store, step);
    hide StoreAfter;
    var s, op, env := st.store, step.op, step.env;
    if !Submits(cfg, s, env.faults, op) {
      SameFate(cfg, s, step, a);
    } else if !cfg.requireReview {
      StartFate(cfg, s.(apps := s.apps[op.id := Resubmitted(s.apps[op.id], env.now)]), env, op.subject, op.id,
                op.eventId, a);
    }
  }

  /** An edit writes at most the edited record. */
  lemma UpdateShape(cfg: Config, s: Store, env: Env, subject: string, standing: Standing, id: AppId,
                    input: DraftInput, inputValid: bool, echo: Credentials)
    ensures var apps' := P.UpdateDraft(cfg, s, env, subject, standing, id, input, inputValid, echo).store.apps;
            || apps' == s.apps
            || (&& id in s.apps && Editable(s.apps[id].status) && EnsureEligible(cfg, subject, standing).None?
                && inputValid
                && s.apps[id].owner == subject && LoadCall !in env.faults && SaveCall !in env.faults
                && apps' == s.apps[id := Edited(cfg, s.apps[id], input, env.now)])
  {
    hide EnsureEligible, SyncApprovedClient, Edited;
  }

  lemma UpdateFate(cfg: Config, st: State, step: Step, a: AppId)
    requires step.op.UpdateDraft? && Sane(st.store, step, a)
    ensures AppFate(cfg, st.store, step,
                    P.UpdateDraft(cfg, st.store, step.env, step.op.subject, step.op.standing, step.op.id,
                                  step.op.input, step.op.inputValid, step.op.echo).store.apps, a)
  {
    hide P.UpdateDraft;
    UpdateShape(cfg, st.store, step.env, step.op.subject, step.op.standing, step.op.id, step.op.input,
                step.op.inputValid, step.op.echo);
    SameFate(cfg, st.store, step, a);
  }

  lemma RotateFate(cfg: Config, st: State, step: Step, a: AppId)
    requires step.op.RotateSecret? && Allowed(st, step) && Sane(st.store, step, a)
    ensures AppFate(cfg, st.store, step, StoreAfter(cfg, st.store, step).apps, a)
  {
    var s, id := st.store, step.op.id;
    if id in s.apps && s.apps[id].status.Approved? {
      RotateShape(cfg, s, step);
      hide StoreAfter, Confirmed;
    } else {
      assert StoreAfter(cfg, s, step).apps == s.apps;
      hide StoreAfter;
    }
  }

  lemma RevokeFate(cfg: Config, st: State, step: Step, a: AppId)
    requires step.op.Revoke? && Sane(st.store, step, a)
    ensures AppFate(cfg, st.store, step, P.Revoke(st.store, step.env, step.op.subject, step.op.id).store.apps, a)
  {
  }

  lemma DeleteFate(cfg: Config, st: State, step: Step, a: AppId)
    requires step.op.Delete? && Sane(st.store, step, a)
    ensures AppFate(cfg, st.store, step,
                    P.Delete(cfg, st.store, step.env, step.op.subject, step.op.standing, step.op.id).store.apps, a)
  {
    hide EnsureEligible;
  }

  /** An approval that passes its checks moves the record on, with or without the review. */
  lemma ApproveShape(cfg: Config, s: Store, step: Step)
    requires step.op.Approve? && Approves(cfg, s, step.env, step.op)
    ensures var id := step.op.id;
            StoreAfter(cfg, s, step).apps ==
            s.apps[id := if SaveCall in step.env.faults then s.apps[id].(status := Provisioning,
                                                                         updatedAt := step.env.now)
                         else Reviewed(cfg, s.apps[id], step.op.reviewer, step.op.reason, Provisioning, step.env.now)]
  {
    hide PrepareReview, Reviewed;
  }

  lemma ApproveFate(cfg: Config, st: State, step: Step, a: AppId)
    requires step.op.Approve? && Sane(st.store, step, a)
    ensures AppFate(cfg, st.store, step, StoreAfter(cfg, st.store, step).apps, a)
  {
    if Approves(cfg, st.store, step.env, step.op) {
      ApproveShape(cfg, st.store, step);
      hide StoreAfter, Approves;
    } else {
      assert StoreAfter(cfg, st.store, step) == st.store;
      hide StoreAfter;
      SameFate(cfg, st.store, step, a);
    }
  }

  /** A rejection or a request for changes writes at most one record, and of it only status, review and time. */
  lemma DecideShape(cfg: Config, s: Store, env: Env, reviewer: string, access: Access, id: AppId, reason: string,
                    target: Status, action: Action) returns (app: Application)
    requires target.Rejected? || target.ChangesRequested?
    ensures P.Decide(cfg, s, env, reviewer, access, id, reason, target, action).store.live == s.live
    ensures var apps' := P.Decide(cfg, s, env, reviewer, access, id, reason, target, action).store.apps;
            || apps' == s.apps
            || (&& id in s.apps && s.apps[id].status.PendingReview? && apps' == s.apps[id := app]
                && app == s.apps[id].(status := target, reviewedBy := app.reviewedBy, reviewNote := app.reviewNote,
                                      updatedAt := env.now))
  {
    hide PrepareReview;
    if id in s.apps && SaveCall in env.faults {
      app := s.apps[id].(status := target, updatedAt := env.now);
    } else if id in s.apps {
      app := Reviewed(cfg, s.apps[id], reviewer, reason, target, env.now);
    } else {
      app := *;
    }
  }

  lemma DecideFate(cfg: Config, st: State, step: Step, target: Status, action: Action, a: AppId)
    requires (step.op.Reject? || step.op.RequestChanges?) && Sane(st.store, step, a)
             && (target.Rejected? || target.ChangesRequested?)
    ensures AppFate(cfg, st.store, step,
                    P.Decide(cfg, st.store, step.env, step.op.reviewer, step.op.access, step.op.id, step.op.reason,
                             target, action).store.apps, a)
  {
    hide P.Decide;
    var app := DecideShape(cfg, st.store, step.env, step.op.reviewer, step.op.access, step.op.id, step.op.reason,
                           target, action);
    SameFate(cfg, st.store, step, a);
  }

  lemma RunOnceFate(cfg: Config, st: State, step: Step, a: AppId)
    requires step.op.RunOnce? && Allowed(st, step) && Sane(st.store, step, a)
    ensures AppFate(cfg, st.store, step, Apply(cfg, st, step).store.apps, a)
  {
    var op, env := step.op, step.env;
    if op.choice.Some? && ClaimCall !in env.faults {
      hide Handle;
      WorkerFate(cfg, st.store.(outbox := Claimed(st.store.outbox, op.choice.value, env.now)), env, st.cache,
                 op.choice.value, op.grant, op.nonce, a);
    }
  }

  /** Every step, torn or not, treats every record as AppFate says. */
  lemma AppStep(cfg: Config, st: State, step: Step, a: AppId)
    requires RecordsOk(st.store.apps, st.issued) && Allowed(st, step)
    ensures AppFate(cfg, st.store, step, Apply(cfg, st, step).store.apps, a)
  {
    assert Sane(st.store, step, a);
    hide AppFate, P.CreateDraft, P.UpdateDraft, P.Submit, P.RotateSecret, P.Revoke, P.Delete, P.Approve, P.Decide;
    match step.op
    case CreateDraft(_, _, _, _, id, _) => CreateFate(cfg, st, step, a);
    case Submit(_, _, _, _) => SubmitFate(cfg, st, step, a);
    case UpdateDraft(_, _, _, _, _, _) => UpdateFate(cfg, st, step, a);
    case RotateSecret(_, _, _, _, _, _) => RotateFate(cfg, st, step, a);
    case ViewSecret(_, _, _) => SameFate(cfg, st.store, step, a);
    case Revoke(_, _) => RevokeFate(cfg, st, step, a);
    case Delete(_, _, _) => DeleteFate(cfg, st, step, a);
    case Approve(_, _, _, _, _) => ApproveFate(cfg, st, step, a);
    case Reject(_, _, _, _) => DecideFate(cfg, st, step, Rejected, AppRejected, a);
    case RequestChanges(_, _, _, _) => DecideFate(cfg, st, step, ChangesRequested, ChangesAsked, a);
    case RunOnce(_, _, _) => RunOnceFate(cfg, st, step, a);
  }

  // ---------------------------------------------------------------- events

  predicate ClaimsEvent(step: Step, e: EventId) {
    step.op.RunOnce? && ClaimCall !in step.env.faults && step.op.choice == Some(e)
  }

  /** A claimed event ends the pass completed, still claimed, or given back with the retry delay. */
  predicate Handled(cfg: Config, v: OutboxEvent, v': OutboxEvent, now: Time) {
    && SameEvent(v, v') && v'.attempts == v.attempts + 1
    && (|| v'.completedAt == Some(now)
        || (v'.completedAt == v.completedAt && v'.claimedAt == Some(now))
        || (v'.completedAt == v.completedAt && v'.claimedAt.None? && v'.availableAt == now + cfg.retryDelay))
  }

  predicate EventFate(cfg: Config, o: Outbox, step: Step, o': Outbox, e: EventId) {
    if e in o.events then
      && e in o'.events
      && if ClaimsEvent(step, e) then Handled(cfg, o.events[e], o'.events[e], step.env.now)
         else o'.events[e] == o.events[e]
    else
      e in o'.events ==>
        && !step.op.RunOnce?
        && o'.events[e] == ProvisionEvent(step.op.id, e, step.env.now)
  }

  /** A pass touches only the event it claimed, and never the key index. */
  lemma WorkerOutbox(cfg: Config, s: Store, env: Env, cache: Cache, e: EventId, grant: Credentials, nonce: string)
    requires e in s.outbox.events && s.outbox.events[e].claimedAt == Some(env.now)
    ensures var o' := Handle(cfg, s, env, e, cache, grant, nonce).store.outbox;
            var v := s.outbox.events[e];
            || o' == s.outbox
            || o' == s.outbox.(events := s.outbox.events[e := v.(completedAt := Some(env.now))])
            || o' == s.outbox.(events := s.outbox.events[e := v.(claimedAt := None, availableAt := env.now
                                                                 + cfg.retryDelay)])
  {
    if s.outbox.events[e].kind.ProvisionApplication? {
      HandleShape(cfg, s, env, e, cache, grant, nonce);
      hide Handle;
    }
  }

  /** Any other step enqueues at most one event, under a key that was free. */
  predicate OutboxShape(s: Store, step: Step, s': Store)
    requires !step.op.RunOnce?
  {
    || s'.outbox == s.outbox
    || (&& (step.op.CreateDraft? || step.op.Submit? || step.op.Approve?)
        && (if step.op.CreateDraft? then step.op.id !in s.apps
            else step.op.id in s.apps && !Started(s.apps[step.op.id].status))
        && ProvisionKey(step.op.id) !in s.outbox.byKey
        && s'.outbox == Enqueued(s.outbox, ProvisionEvent(step.op.id, step.op.eventId, step.env.now))
        && step.op.id in s'.apps && s'.apps[step.op.id].status.Provisioning?)
  }

  lemma StartOutbox(s: Store, env: Env, subject: string, app: Application, eventId: EventId)
    ensures var s' := StartProvisioning(s, env, subject, app, eventId).store;
            || s'.outbox == s.outbox
            || (&& ProvisionKey(app.id) !in s.outbox.byKey
                && s'.outbox == Enqueued(s.outbox, ProvisionEvent(app.id, eventId, env.now))
                && app.id in s'.apps && s'.apps[app.id].status.Provisioning?)
  {
  }

  lemma CreateOutbox(cfg: Config, st: State, step: Step)
    requires step.op.CreateDraft?
    ensures OutboxShape(st.store, step, StoreAfter(cfg, st.store, step))
  {
    hide EnsureEligible, OpenApps, StartProvisioning;
    var s, op, env := st.store, step.op, step.env;
    var app := NewDraft(cfg, op.id, op.subject, op.input, env.now);
    StartOutbox(Logged(s.(apps := s.apps[op.id := app]), env, op.subject, AppCreated, op.id), env, op.subject, app,
                op.eventId);
  }

  lemma SubmitOutbox(cfg: Config, st: State, step: Step)
    requires step.op.Submit? && Sane(st.store, step, step.op.id)
    ensures OutboxShape(st.store, step, StoreAfter(cfg, st.store, step))
  {
    hide EnsureEligible, StartProvisioning;
    SubmitShape(cfg, st.store, step);
    hide StoreAfter;
    var s, op, env := st.store, step.op, step.env;
    if Submits(cfg, s, env.faults, op) {
      var draft := Resubmitted(s.apps[op.id], env.now);
      StartOutbox(s.(apps := s.apps[op.id := draft]), env, op.subject, draft, op.eventId);
    }
  }

  lemma OtherOutbox(cfg: Config, st: State, step: Step)
    requires !step.op.CreateDraft? && !step.op.Submit? && !step.op.RunOnce?
    ensures OutboxShape(st.store, step, StoreAfter(cfg, st.store, step))
  {
    hide EnsureEligible, PrepareReview, SyncApprovedClient;
  }

  lemma EventStep(cfg: Config, st: State, step: Step, e: EventId)
    requires RecordsOk(st.store.apps, st.issued) && Allowed(st, step)
    ensures EventFate(cfg, st.store.outbox, step, Apply(cfg, st, step).store.outbox, e)
    ensures !step.op.RunOnce? ==> OutboxShape(st.store, step, Apply(cfg, st, step).store)
    ensures step.op.RunOnce? ==> Apply(cfg, st, step).store.outbox.byKey == st.store.outbox.byKey
  {
    var op, env := step.op, step.env;
    if op.RunOnce? {
      if op.choice.Some? && ClaimCall !in env.faults {
        hide Handle;
        WorkerOutbox(cfg, st.store.(outbox := Claimed(st.store.outbox, op.choice.value, env.now)), env, st.cache,
                     op.choice.value, op.grant, op.nonce);
      }
    } else {
      assert Sane(st.store, step, op.id);
      hide StoreAfter;
      if op.CreateDraft? {
        CreateOutbox(cfg, st, step);
      } else if op.Submit? {
        SubmitOutbox(cfg, st, step);
      } else {
        OtherOutbox(cfg, st, step);
      }
    }
  }

  // ---------------------------------------------------------------- the cache

  /** A credential enters the cache only by CreateClient, and leaves it only when its application is approved. */
  predicate CacheFate(st: State, step: Step, st': State, a: AppId) {
    && (a in st.cache && a !in st'.cache ==> a in st'.store.apps && !st'.store.apps[a].status.Provisioning?)
    && (a !in st.cache && a in st'.cache ==> CreatesClient(st, step, a))
    && (a in st.cache && a in st'.cache ==> st'.cache[a] == st.cache[a])
    && (a in st'.cache && a in st.store.apps ==> a in st'.store.apps && st'.store.apps[a] == st.store.apps[a])
    && (CreatesClient(st, step, a) ==>
          a in st'.cache || (a in st'.store.apps && st'.store.apps[a].status.Approved?))
  }

  lemma CacheStep(cfg: Config, st: State, step: Step, a: AppId)
    requires Allowed(st, step) && step.op.RunOnce?
    ensures CacheFate(st, step, Apply(cfg, st, step), a)
  {
    var op, env := step.op, step.env;
    if op.choice.Some? && ClaimCall !in env.faults {
      var s := st.store.(outbox := Claimed(st.store.outbox, op.choice.value, env.now));
      if s.outbox.events[op.choice.value].kind.ProvisionApplication? {
        hide Handle;
        HandleShape(cfg, s, env, op.choice.value, st.cache, op.grant, op.nonce);
      }
    }
  }

  // ---------------------------------------------------------------- what a pass does with the event it claimed

  predicate PassClaims(st: State, step: Step) {
    && step.op.RunOnce? && ClaimCall !in step.env.faults && step.op.choice.Some?
    && step.op.choice.value in st.store.outbox.events
    && st.store.outbox.events[step.op.choice.value].kind.ProvisionApplication?
  }

  function PassApp(st: State, step: Step): AppId
    requires PassClaims(st, step)
  {
    st.store.outbox.events[step.op.choice.value].app
  }

  function PassCredentials(st: State, step: Step): Credentials
    requires PassClaims(st, step)
  {
    CredentialsOf(st.cache, PassApp(st, step), step.op.grant)
  }

  predicate PassApproves(st: State, step: Step) {
    PassClaims(st, step) && Saves(st.store, step.env.faults, PassApp(st, step), st.cache, step.op.grant)
  }

  /** The pass finds that there is nothing left to do for its event. */
  predicate PassSkips(st: State, step: Step) {
    PassClaims(st, step) && Skips(st.store, step.env.faults, PassApp(st, step))
  }

  /** The pass calls CreateClient with success for this application. */
  predicate CreatesClient(st: State, step: Step, a: AppId) {
    && PassClaims(st, step) && PassApp(st, step) == a
    && Reaches(st.store, step.env.faults, a, st.cache) && a !in st.cache
  }

  /** A pass approves, skips or gives back; it completes its event in the first two cases, unless Complete fails. */
  lemma PassShape(cfg: Config, st: State, step: Step)
    requires PassClaims(st, step)
    ensures var st', e, a := Apply(cfg, st, step), step.op.choice.value, PassApp(st, step);
            && st'.store.apps == (if PassApproves(st, step)
                                  then st.store.apps[a := ApprovedWith(st.store.apps[a], PassCredentials(st, step),
                                                                       step.op.nonce, step.env.now)]
                                  else st.store.apps)
            && st'.store.live == (if CreatesClient(st, step, a)
                                  then st.store.live[step.op.grant.id := Client(RegistrationOf(st.store.apps[a],
                                                                                               StandardPolicy),
                                                                                                 step.op.grant.secret)]
                                  else st.store.live)
            && st'.cache == (if PassApproves(st, step) || PassSkips(st, step) then st.cache - {a}
                             else if CreatesClient(st, step, a) then st.cache[a := step.op.grant] else st.cache)
            && st'.store.outbox.byKey == st.store.outbox.byKey && st'.issued == st.issued
               && st'.granted == st.granted + st'.store.live.Keys
            && e in st'.store.outbox.events
            && st'.store.outbox.events[e].completedAt ==
               if (PassApproves(st, step) || PassSkips(st, step)) && CompleteCall !in step.env.faults
               then Some(step.env.now) else st.store.outbox.events[e].completedAt
  {
    hide Handle;
    var s := st.store.(outbox := Claimed(st.store.outbox, step.op.choice.value, step.env.now));
    HandleShape(cfg, s, step.env, step.op.choice.value, st.cache, step.op.grant, step.op.nonce);
  }

  // ---------------------------------------------------------------- what a call other than a pass leaves alone

  ghost predicate SameBut(apps: Apps, apps': Apps, a: AppId) {
    forall b :: b != a ==> (b in apps <==> b in apps') && (b in apps ==> apps'[b] == apps[b])
  }

  /** The client of the approved application, if it is one. */
  predicate IsClientOf(apps: Apps, a: AppId, c: ClientId) {
    a in apps && apps[a].status.Approved? && apps[a].clientId == c
  }

  /** Other records stay as they are, and so do all clients but the application's own; none appears. */
  ghost predicate OnlyTouches(s: Store, s': Store, a: AppId) {
    && SameBut(s.apps, s'.apps, a)
    && (forall c :: c in s'.live ==> c in s.live)
    && (forall c :: c in s.live && !IsClientOf(s.apps, a, c) ==> c in s'.live && s'.live[c] == s.live[c])
  }

  /** Calls that never reach the remote server. */
  predicate Local(op: Op) {
    op.CreateDraft? || op.Submit? || op.ViewSecret? || op.Approve? || op.Reject? || op.RequestChanges?
  }

  lemma StartTouches(s: Store, env: Env, subject: string, app: Application, eventId: EventId)
    ensures var s' := StartProvisioning(s, env, subject, app, eventId).store;
            SameBut(s.apps, s'.apps, app.id) && s'.live == s.live
  {
  }

  lemma CreateTouches(cfg: Config, s: Store, step: Step)
    requires step.op.CreateDraft?
    ensures SameBut(s.apps, StoreAfter(cfg, s, step).apps, step.op.id) && StoreAfter(cfg, s, step).live == s.live
  {
    hide EnsureEligible, OpenApps, StartProvisioning;
    var op, env := step.op, step.env;
    var app := NewDraft(cfg, op.id, op.subject, op.input, env.now);
    StartTouches(Logged(s.(apps := s.apps[op.id := app]), env, op.subject, AppCreated, op.id), env, op.subject, app,
                 op.eventId);
  }

  lemma SubmitTouches(cfg: Config, s: Store, step: Step)
    requires step.op.Submit? && (step.op.id in s.apps ==> s.apps[step.op.id].id == step.op.id)
    ensures SameBut(s.apps, StoreAfter(cfg, s, step).apps, step.op.id) && StoreAfter(cfg, s, step).live == s.live
    ensures step.op.id in s.apps && s.apps[step.op.id].status.Approved? ==> StoreAfter(cfg, s, step).apps == s.apps
  {
    hide EnsureEligible, StartProvisioning;
    SubmitShape(cfg, s, step);
    hide StoreAfter;
    if Submits(cfg, s, step.env.faults, step.op) {
      var draft := Resubmitted(s.apps[step.op.id], step.env.now);
      StartTouches(s.(apps := s.apps[step.op.id := draft]), step.env, step.op.subject, draft, step.op.eventId);
    }
  }

  lemma ApproveTouches(cfg: Config, s: Store, step: Step)
    requires step.op.Approve?
    ensures SameBut(s.apps, StoreAfter(cfg, s, step).apps, step.op.id) && StoreAfter(cfg, s, step).live == s.live
    ensures step.op.id in s.apps && s.apps[step.op.id].status.Approved? ==> StoreAfter(cfg, s, step).apps == s.apps
  {
    assert StoreAfter(cfg, s, step).live == s.live;
    if Approves(cfg, s, step.env, step.op) {
      ApproveShape(cfg, s, step);
    } else {
      assert StoreAfter(cfg, s, step) == s;
    }
    hide StoreAfter, Reviewed;
  }

  lemma DecideTouches(cfg: Config, s: Store, step: Step)
    requires step.op.Reject? || step.op.RequestChanges?
    ensures SameBut(s.apps, StoreAfter(cfg, s, step).apps, step.op.id) && StoreAfter(cfg, s, step).live == s.live
    ensures step.op.id in s.apps && s.apps[step.op.id].status.Approved? ==> StoreAfter(cfg, s, step).apps == s.apps
  {
    hide P.Decide;
    var op := step.op;
    var target, action := if op.Reject? then Rejected else ChangesRequested, if op.Reject? then AppRejected
      else ChangesAsked;
    var app := DecideShape(cfg, s, step.env, op.reviewer, op.access, op.id, op.reason, target, action);
  }

  lemma LocalTouches(cfg: Config, s: Store, step: Step)
    requires Local(step.op) && (step.op.id in s.apps ==> s.apps[step.op.id].id == step.op.id)
    ensures SameBut(s.apps, StoreAfter(cfg, s, step).apps, step.op.id) && StoreAfter(cfg, s, step).live == s.live
    ensures !step.op.CreateDraft? && step.op.id in s.apps && s.apps[step.op.id].status.Approved? ==>
              StoreAfter(cfg, s, step).apps == s.apps
  {
    if step.op.CreateDraft? {
      CreateTouches(cfg, s, step);
    } else if step.op.Submit? {
      SubmitTouches(cfg, s, step);
    } else if step.op.ViewSecret? {
      assert StoreAfter(cfg, s, step).apps == s.apps && StoreAfter(cfg, s, step).live == s.live;
    } else if step.op.Approve? {
      ApproveTouches(cfg, s, step);
    } else {
      DecideTouches(cfg, s, step);
    }
    hide StoreAfter;
  }

  /** Edits and rotations of an application that is not approved do not reach the remote server. */
  lemma UnapprovedTouches(cfg: Config, s: Store, step: Step)
    requires step.op.UpdateDraft? || step.op.RotateSecret?
    requires !(step.op.id in s.apps && s.apps[step.op.id].status.Approved?)
    ensures SameBut(s.apps, StoreAfter(cfg, s, step).apps, step.op.id) && StoreAfter(cfg, s, step).live == s.live
  {
    hide EnsureEligible, Edited;
  }

  /** What an edit does to an approved application: client first, then the record. */
  lemma EditShape(cfg: Config, s: Store, step: Step)
    requires step.op.UpdateDraft? && step.op.id in s.apps && RecordOk(step.op.id, s.apps[step.op.id])
    requires s.apps[step.op.id].status.Approved?
    requires step.op.echo == Credentials(s.apps[step.op.id].clientId, s.apps[step.op.id].secret.plaintext)
    ensures var s', a, app, f := StoreAfter(cfg, s, step), step.op.id, s.apps[step.op.id], step.env.faults;
            if EditsRecord(cfg, s, f, step.op) && HydraCall !in f && app.clientId in s.live
            then
              && s'.live == s.live[app.clientId := Client(EditedRegistration(cfg, app, step.op.input),
                                                          app.secret.plaintext)]
              && s'.apps == if SaveCall in f then s.apps else s.apps[a := Edited(cfg, app, step.op.input, step.env.now)]
            else s'.live == s.live && s'.apps == s.apps
  {
    hide EnsureEligible, Edited, EditedRegistration;
  }

  lemma RotateShape(cfg: Config, s: Store, step: Step)
    requires step.op.RotateSecret? && step.op.id in s.apps && RecordOk(step.op.id, s.apps[step.op.id])
    requires s.apps[step.op.id].status.Approved?
    requires step.op.plaintext != "" && step.op.echo == Credentials(s.apps[step.op.id].clientId, step.op.plaintext)
    ensures var s', a, app, f := StoreAfter(cfg, s, step), step.op.id, s.apps[step.op.id], step.env.faults;
            if Rotates(cfg, s, step.env, step.op) && app.clientId in s.live
            then
              && s'.live == s.live[app.clientId := Client(RegistrationOf(app, NoPolicy), step.op.plaintext)]
              && s'.apps == if EncryptCall in f || SaveCall in f then s.apps
                            else s.apps[a := app.(secret := Sealed(step.op.plaintext, Binding(a, app.clientId),
                                                                   step.op.nonce),
                                                  secretVersion := app.secretVersion + 1, updatedAt := step.env.now)]
            else s'.live == s.live && s'.apps == s.apps
  {
    hide Confirmed;
  }

  lemma RevokeShape(cfg: Config, s: Store, step: Step)
    requires step.op.Revoke?
    ensures var s', a, f := StoreAfter(cfg, s, step), step.op.id, step.env.faults;
            if OwnsApproved(s, f, step.op.subject, a) && HydraCall !in f
            then
              && s'.live == s.live - {s.apps[a].clientId}
              && s'.apps == if TransitionCall in f then s.apps
                 else s.apps[a := s.apps[a].(status := Revoked, updatedAt := step.env.now)]
            else s'.live == s.live && s'.apps == s.apps
  {
  }

  /** The call passes the checks of a deletion. */
  predicate Deletes(cfg: Config, s: Store, f: set<Site>, op: Op)
    requires op.Delete?
  {
    && EnsureEligible(cfg, op.subject, op.standing).None? && LoadCall !in f && op.id in s.apps
    && s.apps[op.id].owner == op.subject && !s.apps[op.id].status.Provisioning?
    && (s.apps[op.id].status.Approved? ==> s.apps[op.id].clientId != "" && HydraCall !in f)
  }

  lemma DeleteShape(cfg: Config, s: Store, step: Step)
    requires step.op.Delete?
    ensures var s', a, f := StoreAfter(cfg, s, step), step.op.id, step.env.faults;
            if Deletes(cfg, s, f, step.op)
            then
              && s'.live == (if s.apps[a].status.Approved? then s.live - {s.apps[a].clientId} else s.live)
              && s'.apps == if AuditCall in f || RemoveCall in f then s.apps else s.apps - {a}
            else s'.live == s.live && s'.apps == s.apps
  {
    hide EnsureEligible;
  }

  /** An application that stops being approved takes its client with it. */
  predicate GivesUp(s: Store, s': Store, a: AppId) {
    a in s.apps && s.apps[a].status.Approved? && !(a in s'.apps && s'.apps[a].status.Approved?) ==>
      s.apps[a].clientId !in s'.live
  }

  lemma LocalTouched(cfg: Config, s: Store, step: Step)
    requires Local(step.op) && (step.op.id in s.apps ==> s.apps[step.op.id].id == step.op.id && !step.op.CreateDraft?)
    ensures OnlyTouches(s, StoreAfter(cfg, s, step), step.op.id) && GivesUp(s, StoreAfter(cfg, s, step), step.op.id)
  {
    LocalTouches(cfg, s, step);
    hide StoreAfter;
  }

  lemma RemovalTouched(cfg: Config, s: Store, step: Step)
    requires step.op.Revoke? || step.op.Delete?
    ensures OnlyTouches(s, StoreAfter(cfg, s, step), step.op.id) && GivesUp(s, StoreAfter(cfg, s, step), step.op.id)
  {
    if step.op.Revoke? {
      RevokeShape(cfg, s, step);
      hide StoreAfter;
    } else {
      DeleteShape(cfg, s, step);
      hide StoreAfter, EnsureEligible;
    }
  }

  lemma UpdateTouched(cfg: Config, st: State, step: Step)
    requires (step.op.UpdateDraft? || step.op.RotateSecret?) && Allowed(st, step) && Sane(st.store, step, step.op.id)
    ensures OnlyTouches(st.store, StoreAfter(cfg, st.store, step), step.op.id)
    ensures GivesUp(st.store, StoreAfter(cfg, st.store, step), step.op.id)
  {
    var s, a := st.store, step.op.id;
    if !(a in s.apps && s.apps[a].status.Approved?) {
      UnapprovedTouches(cfg, s, step);
      hide StoreAfter;
    } else if step.op.UpdateDraft? {
      EditShape(cfg, s, step);
      hide StoreAfter, EnsureEligible;
    } else {
      RotateShape(cfg, s, step);
      hide StoreAfter, Confirmed;
    }
  }

  lemma OpTouches(cfg: Config, st: State, step: Step)
    requires !step.op.RunOnce? && RecordsOk(st.store.apps, st.issued) && Allowed(st, step)
    ensures OnlyTouches(st.store, Apply(cfg, st, step).store, step.op.id)
    ensures GivesUp(st.store, Apply(cfg, st, step).store, step.op.id)
  {
    assert Sane(st.store, step, step.op.id);
    assert Apply(cfg, st, step).store == StoreAfter(cfg, st.store, step);
    hide Apply, RecordsOk, OnlyTouches, GivesUp, StoreAfter;
    if Local(step.op) {
      LocalTouched(cfg, st.store, step);
    } else if step.op.Revoke? || step.op.Delete? {
      RemovalTouched(cfg, st.store, step);
    } else {
      UpdateTouched(cfg, st, step);
    }
  }
}
