/**
 What each public call of the lifecycle answers and leaves behind, field by field: when it goes through, which
 records, events and clients it writes, and that a refused call writes nothing.
 */
module Effects {
  import opened Common
  import opened Domain
  import opened Repositories
  import opened Hydra
  import P = Protocol
  import opened Protocol

  /** The caller is named and may manage applications. */
  predicate MayManage(cfg: Config, subject: string, standing: Standing) {
    cfg.trim(subject) != "" && standing == Standing.Standing(true)
  }

  /** The record can be loaded and belongs to the caller. */
  predicate Owns(s: Store, f: set<Site>, subject: string, id: AppId) {
    LoadCall !in f && id in s.apps && s.apps[id].owner == subject
  }

  /** The caller confirmed the sensitive operation at most the window ago, and not in the future. */
  predicate Recent(cfg: Config, confirmedAt: Time, now: Time) {
    confirmedAt != 0 && confirmedAt <= now <= confirmedAt + cfg.sensitiveWindow
  }

  /** Statuses that count against the limit of open applications. */
  function OpenOf(apps: Apps, owner: string): set<AppId> {
    set a | a in apps && apps[a].owner == owner
            && apps[a].status in {Draft, PendingReview, Provisioning, ChangesRequested}
  }

  predicate Untouched<T>(s: Store, o: Outcome<T>) {
    o.store == s && o.reply.Err?
  }

  /** The call ends with its audit record, and fails if that cannot be written. */
  predicate Audited<T(==)>(s: Store, o: Outcome<T>, env: Env, actor: string, action: Action, id: AppId, value: T) {
    if AuditCall in env.faults then o.reply == Err(Unavailable) && o.store.audit == s.audit
    else o.reply == Ok(value) && o.store.audit == s.audit + [AuditEvent(actor, action, id, env.now)]
  }

  // ---------------------------------------------------------------- creation and submission

  /** Starting a draft: it is provisioning with its event due at once, or rolled back unless that fails, too. */
  lemma StartExactly(s: Store, env: Env, subject: string, app: Application, eventId: EventId)
    requires app.id in s.apps && s.apps[app.id] == app && app.status.Draft?
    ensures var o, f, id := P.StartProvisioning(s, env, subject, app, eventId), env.faults, app.id;
            var started := app.(status := Provisioning, updatedAt := env.now);
            if TransitionCall in f then Untouched(s, o)
            else if EnqueueCall in f || ProvisionKey(id) in s.outbox.byKey then
              && o.reply.Err? && o.store.outbox == s.outbox && o.store.live == s.live && o.store.audit == s.audit
              && o.store.apps == s.apps[id := if RollbackCall in f then started else started.(status := Draft)]
            else
              && o.store.apps == s.apps[id := started] && o.store.live == s.live
              && o.store.outbox.events == s.outbox.events[
                   eventId := OutboxEvent(eventId, ProvisionKey(id), ProvisionApplication, id, 0, env.now, None, None,
                                          env.now)]
              && o.store.outbox.byKey == s.outbox.byKey[ProvisionKey(id) := eventId]
              && Audited(s, o, env, subject, ProvisioningStarted, id, started)
  {
  }

  /** A new draft: trimmed texts, the addresses and domains given, PKCE and nonce required unless declined. */
  function DraftOf(cfg: Config, id: AppId, subject: string, input: DraftInput, now: Time): Application {
    Application(id, subject, cfg.trim(input.name), cfg.trim(input.description), cfg.trim(input.logo), input.callbacks,
                input.domains, Draft, input.requirePKCENonce != Some(false), "", NoCiphertext, 0, "", "", now, now)
  }

  lemma CreateDraftExactly(cfg: Config, s: Store, env: Env, subject: string, standing: Standing,
                           input: DraftInput, inputValid: bool, id: AppId, eventId: EventId)
    ensures var o, f := P.CreateDraft(cfg, s, env, subject, standing, input, inputValid, id, eventId), env.faults;
            var draft := DraftOf(cfg, id, subject, input, env.now);
            var audit := s.audit + [AuditEvent(subject, AppCreated, id, env.now)];
            if !(&& MayManage(cfg, subject, standing) && inputValid && |OpenOf(s.apps, subject)| < cfg.maxOpen
                 && CountCall !in f && RandomCall !in f && CreateCall !in f && id !in s.apps)
            then Untouched(s, o)
            else if CreationAuditCall in f then o == Outcome(s.(apps := s.apps[id := draft]), Err(Unavailable))
            else if cfg.requireReview then o == Outcome(s.(apps := s.apps[id := draft], audit := audit), Ok(draft))
            else o == P.StartProvisioning(s.(apps := s.apps[id := draft], audit := audit), env, subject, draft, eventId)
  {
    hide StartProvisioning;
    assert OpenOf(s.apps, subject) == OpenApps(s.apps, subject);
  }

  lemma SubmitExactly(cfg: Config, s: Store, env: Env, subject: string, standing: Standing, id: AppId, eventId: EventId)
    ensures var o, f := P.Submit(cfg, s, env, subject, standing, id, eventId), env.faults;
            if !(MayManage(cfg, subject, standing) && Owns(s, f, subject, id)) then Untouched(s, o)
            else
              var app := s.apps[id];
              var returned := app.status in {ChangesRequested, Rejected};
              if (!returned && !app.status.Draft?) || (returned && ReopenCall in f) then Untouched(s, o)
              else
                var draft := if returned then app.(status := Draft, updatedAt := env.now) else app;
                if !cfg.requireReview then
                  o == P.StartProvisioning(s.(apps := s.apps[id := draft]), env, subject, draft, eventId)
                else if TransitionCall in f then o.reply.Err? && o.store == s.(apps := s.apps[id := draft])
                else
                  var submitted := draft.(status := PendingReview, updatedAt := env.now);
                  && o.store.apps == s.apps[id := submitted] && o.store.outbox == s.outbox && o.store.live == s.live
                  && Audited(s, o, env, subject, AppSubmitted, id, submitted)
  {
    hide StartProvisioning;
    if id in s.apps {
      assert s.apps == s.apps[id := s.apps[id]];
    }
  }

  // ---------------------------------------------------------------- edits

  /**
   The record after an edit: the given texts, addresses, domains and flag; unless approved, a draft again without
   review.
   */
  function EditOf(cfg: Config, app: Application, input: DraftInput, now: Time): Application {
    Application(app.id, app.owner, cfg.trim(input.name), cfg.trim(input.description), cfg.trim(input.logo),
                input.callbacks, input.domains, if app.status.Approved? then Approved else Draft,
                if input.requirePKCENonce.None? then app.requirePKCENonce else input.requirePKCENonce.value,
                app.clientId, app.secret, app.secretVersion,
                if app.status.Approved? then app.reviewNote else "", if app.status.Approved? then app.reviewedBy
                  else "",
                app.createdAt, now)
  }

  lemma UpdateDraftExactly(cfg: Config, s: Store, env: Env, subject: string, standing: Standing, id: AppId,
                           input: DraftInput, inputValid: bool, echo: Credentials)
    ensures var o, f := P.UpdateDraft(cfg, s, env, subject, standing, id, input, inputValid, echo), env.faults;
            if !(&& MayManage(cfg, subject, standing) && Owns(s, f, subject, id) && inputValid
                 && s.apps[id].status in {Draft, ChangesRequested, Rejected, Approved})
            then Untouched(s, o)
            else
              var app, edited := s.apps[id], EditOf(cfg, s.apps[id], input, env.now);
              if !app.status.Approved? then
                if SaveCall in f then Untouched(s, o)
                else
                  && o.store.apps == s.apps[id := edited] && o.store.outbox == s.outbox && o.store.live == s.live
                  && Audited(s, o, env, subject, AppUpdated, id, edited)
              else if !(&& app.clientId != "" && app.secret.Sealed?
                        && app.secret.binding == Binding(app.id, app.clientId)
                        && HydraCall !in f && app.clientId in s.live)
              then Untouched(s, o)
              else
                && o.store.outbox == s.outbox
                && o.store.live == s.live[app.clientId := Client(
                     Registration(cfg.trim(input.name), cfg.trim(input.logo), input.callbacks, app.owner,
                                  ConfidentialCodeClient, StandardPolicy), app.secret.plaintext)]
                && if echo != Credentials(app.clientId, app.secret.plaintext) || SaveCall in f
                   then o.reply.Err? && o.store.apps == s.apps && o.store.audit == s.audit
                   else o.store.apps == s.apps[id := edited] && Audited(s, o, env, subject, AppUpdated, id, edited)
  {
  }

  // ---------------------------------------------------------------- secrets

  /** The secret is shown exactly to the confirmed owner of an approved application whose secret opens. */
  lemma ViewSecretExactly(cfg: Config, s: Store, env: Env, subject: string, id: AppId, confirmedAt: Time)
    ensures var o := P.ViewSecret(cfg, s, env, subject, id, confirmedAt);
            if !(&& Owns(s, env.faults, subject, id) && s.apps[id].status.Approved? && s.apps[id].clientId != ""
                 && s.apps[id].secret.Sealed? && s.apps[id].secret.binding
                    == Binding(s.apps[id].id, s.apps[id].clientId)
                 && Recent(cfg, confirmedAt, env.now))
            then Untouched(s, o)
            else
              && o.store.apps == s.apps && o.store.outbox == s.outbox && o.store.live == s.live
              && Audited(s, o, env, subject, SecretViewed, id, s.apps[id].secret.plaintext)
  {
  }

  /** A rotation sends the new secret with the record's own registration, and stores it sealed under its binding. */
  lemma RotateSecretExactly(cfg: Config, s: Store, env: Env, subject: string, id: AppId, confirmedAt: Time,
                            plaintext: string, nonce: string, echo: Credentials)
    ensures var o, f := P.RotateSecret(cfg, s, env, subject, id, confirmedAt, plaintext, nonce, echo), env.faults;
            if !(&& Owns(s, f, subject, id) && s.apps[id].status.Approved? && s.apps[id].clientId != ""
                 && Recent(cfg, confirmedAt, env.now) && RandomCall !in f && HydraCall !in f
                    && s.apps[id].clientId in s.live)
            then Untouched(s, o)
            else
              var app := s.apps[id];
              && o.store.outbox == s.outbox
              && o.store.live == s.live[app.clientId := Client(
                   Registration(app.name, app.logo, app.callbacks, app.owner, ConfidentialCodeClient, NoPolicy),
                     plaintext)]
              && if echo.id != app.clientId || echo.secret == "" || EncryptCall in f || SaveCall in f
                 then o.reply.Err? && o.store.apps == s.apps && o.store.audit == s.audit
                 else
                   var rotated := app.(secret := Sealed(echo.secret, Binding(app.id, app.clientId), nonce),
                                       secretVersion := app.secretVersion + 1, updatedAt := env.now);
                   o.store.apps == s.apps[id := rotated] && Audited(s, o, env, subject, SecretRotated, id, rotated)
  {
  }

  // ---------------------------------------------------------------- the end of an application

  lemma RevokeExactly(s: Store, env: Env, subject: string, id: AppId)
    ensures var o, f := P.Revoke(s, env, subject, id), env.faults;
            if !(Owns(s, f, subject, id) && s.apps[id].status.Approved? && HydraCall !in f) then Untouched(s, o)
            else
              && o.store.outbox == s.outbox && o.store.live == s.live - {s.apps[id].clientId}
              && if TransitionCall in f then o.reply.Err? && o.store.apps == s.apps && o.store.audit == s.audit
                 else
                   && o.store.apps == s.apps[id := s.apps[id].(status := Revoked, updatedAt := env.now)]
                   && Audited(s, o, env, subject, AppRevoked, id, ())
  {
  }

  lemma DeleteExactly(cfg: Config, s: Store, env: Env, subject: string, standing: Standing, id: AppId)
    ensures var o, f := P.Delete(cfg, s, env, subject, standing, id), env.faults;
            if !(&& MayManage(cfg, subject, standing) && Owns(s, f, subject, id) && !s.apps[id].status.Provisioning?
                 && (s.apps[id].status.Approved? ==> s.apps[id].clientId != "" && HydraCall !in f))
            then Untouched(s, o)
            else
              && o.store.outbox == s.outbox
              && o.store.live == (if s.apps[id].status.Approved? then s.live - {s.apps[id].clientId} else s.live)
              && o.store.apps == (if AuditCall in f || RemoveCall in f then s.apps else s.apps - {id})
              && o.store.audit == (if AuditCall in f then s.audit
                                   else s.audit + [AuditEvent(subject, AppDeleted, id, env.now)])
              && (o.reply == Ok(()) <==> AuditCall !in f && RemoveCall !in f)
  {
  }

  // ---------------------------------------------------------------- review

  /** The caller is named, and a reviewer or, not being one, an administrator. */
  predicate MayReview(subject: string, access: Access) {
    subject != "" && (access.isReviewer == Some(true)
                      || (access.isReviewer == Some(false) && access.isAdmin == Some(true)))
  }

  /** A review is let through exactly of a pending application, by someone who may review it, with a note. */
  predicate Reviewable(cfg: Config, s: Store, f: set<Site>, reviewer: string, access: Access, id: AppId,
                       reason: string) {
    && MayReview(reviewer, access) && cfg.trim(reason) != "" && LoadCall !in f && id in s.apps
    && s.apps[id].status.PendingReview? && (s.apps[id].owner == reviewer ==> access.isAdmin == Some(true))
  }

  lemma PrepareReviewExactly(cfg: Config, s: Store, env: Env, reviewer: string, access: Access, id: AppId,
                             reason: string)
    ensures var r := P.PrepareReview(cfg, s, env, reviewer, access, id, reason);
            && (r.None? <==> Reviewable(cfg, s, env.faults, reviewer, access, id, reason))
            && (r == Some(NotReviewer) <==>
                  reviewer == "" || (access.isReviewer == Some(false) && access.isAdmin == Some(false)))
            && (r == Some(ReasonRequired) <==> MayReview(reviewer, access) && cfg.trim(reason) == "")
            && (r == Some(SelfReview) <==>
                  && MayReview(reviewer, access) && cfg.trim(reason) != "" && LoadCall !in env.faults && id in s.apps
                  && s.apps[id].owner == reviewer && access.isAdmin == Some(false))
  {
  }

  lemma ApproveExactly(cfg: Config, s: Store, env: Env, reviewer: string, access: Access, id: AppId, reason: string,
                       eventId: EventId)
    ensures var o, f := P.Approve(cfg, s, env, reviewer, access, id, reason, eventId), env.faults;
            if !(Reviewable(cfg, s, f, reviewer, access, id, reason) && ReloadCall !in f && TransitionCall !in f)
            then Untouched(s, o)
            else
              var moved := s.apps[id].(status := Provisioning, updatedAt := env.now);
              var reviewed := moved.(reviewedBy := reviewer, reviewNote := cfg.trim(reason));
              && o.store.live == s.live
              && if SaveCall in f then o.reply.Err? && o.store == s.(apps := s.apps[id := moved])
                 else if EnqueueCall in f || ProvisionKey(id) in s.outbox.byKey
                 then o.reply.Err? && o.store == s.(apps := s.apps[id := reviewed])
                 else
                   && o.store.apps == s.apps[id := reviewed]
                   && o.store.outbox.events == s.outbox.events[
                        eventId := OutboxEvent(eventId, ProvisionKey(id), ProvisionApplication, id, 0, env.now, None,
                                               None, env.now)]
                   && o.store.outbox.byKey == s.outbox.byKey[ProvisionKey(id) := eventId]
                   && Audited(s, o, env, reviewer, AppApproved, id, ())
  {
    hide PrepareReview;
    PrepareReviewExactly(cfg, s, env, reviewer, access, id, reason);
  }

  /** Rejections and requests for changes. */
  lemma DecideExactly(cfg: Config, s: Store, env: Env, reviewer: string, access: Access, id: AppId, reason: string,
                      target: Status, action: Action)
    requires target.Rejected? || target.ChangesRequested?
    ensures var o, f := P.Decide(cfg, s, env, reviewer, access, id, reason, target, action), env.faults;
            if !(Reviewable(cfg, s, f, reviewer, access, id, reason) && ReloadCall !in f && TransitionCall !in f)
            then Untouched(s, o)
            else
              var moved := s.apps[id].(status := target, updatedAt := env.now);
              if SaveCall in f then o.reply.Err? && o.store == s.(apps := s.apps[id := moved])
              else
                && o.store.apps == s.apps[id := moved.(reviewedBy := reviewer, reviewNote := cfg.trim(reason))]
                && o.store.outbox == s.outbox && o.store.live == s.live
                && Audited(s, o, env, reviewer, action, id, ())
  {
    hide PrepareReview, Reviewable;
    PrepareReviewExactly(cfg, s, env, reviewer, access, id, reason);
  }

  // ---------------------------------------------------------------- a worker pass

  /** The event as the claim leaves it. */
  function ClaimedOnce(v: OutboxEvent, now: Time): OutboxEvent {
    v.(attempts := v.attempts + 1, claimedAt := Some(now))
  }

  /** The pass gives the event back, due after the retry delay, or leaves it claimed when that fails. */
  predicate GivenBack(cfg: Config, s: Store, env: Env, e: EventId, w: Work)
    requires e in s.outbox.events
  {
    var v := ClaimedOnce(s.outbox.events[e], env.now);
    && w.store.apps == s.apps && w.store.audit == s.audit && w.store.outbox.byKey == s.outbox.byKey
    && w.store.outbox.events == s.outbox.events[
         e := if RetryCall in env.faults then v else v.(claimedAt := None, availableAt := env.now + cfg.retryDelay)]
    && !w.processed && w.error.Some?
  }

  /** The event as the pass leaves it that has done its work. */
  predicate DoneOrHeld(s: Store, env: Env, e: EventId, w: Work)
    requires e in s.outbox.events
  {
    var v := ClaimedOnce(s.outbox.events[e], env.now);
    && w.store.outbox.byKey == s.outbox.byKey
    && w.store.outbox.events == s.outbox.events[e := if CompleteCall in env.faults then v
                                                else v.(completedAt := Some(env.now))]
  }

  /** The application as the pass approves it: client, sealed secret, version and status are new, all else is kept. */
  function ApprovalOf(app: Application, c: Credentials, nonce: string, now: Time): Application {
    Application(app.id, app.owner, app.name, app.description, app.logo, app.callbacks, app.domains, Approved,
                app.requirePKCENonce, c.id, Sealed(c.secret, Binding(app.id, c.id), nonce), 1,
                app.reviewNote, app.reviewedBy, app.createdAt, now)
  }

  /** From here on the pass knows the credentials `c` and keeps them in the cache until the record is saved. */
  lemma ConcludeExactly(cfg: Config, s: Store, env: Env, e: EventId, id: AppId, c: Credentials, cache: Cache,
                        nonce: string)
    requires id in s.apps && e in s.outbox.events
    ensures var w, f := P.Conclude(cfg, s, env, e, id, c, cache, nonce), env.faults;
            && w.store.live == s.live
            && if c.id == "" || c.secret == "" || EncryptCall in f || SaveCall in f
               then
                 && w.cache == cache && w.store.apps == s.apps && w.store.audit == s.audit && !w.processed
                    && w.error.Some?
                 && w.store.outbox.byKey == s.outbox.byKey
                 && w.store.outbox.events == (if RetryCall in f then s.outbox.events else
                      s.outbox.events[e := s.outbox.events[e].(claimedAt := None, availableAt := env.now
                                                               + cfg.retryDelay)])
               else
                 && w.cache == cache - {id} && w.store.apps == s.apps[id := ApprovalOf(s.apps[id], c, nonce, env.now)]
                 && w.store.outbox.byKey == s.outbox.byKey
                 && w.store.outbox.events == (if CompleteCall in f then s.outbox.events else
                      s.outbox.events[e := s.outbox.events[e].(completedAt := Some(env.now))])
                 && (w.processed <==> CompleteCall !in f && AuditCall !in f) && (w.processed <==> w.error.None?)
                 && w.store.audit == s.audit + if w.processed then [AuditEvent("system", AppProvisioned, id, env.now)]
                    else []
  {
  }

  /**
   The pass that knows the application's credentials approves the record with them, or keeps them and gives up for now.
   */
  predicate Concluded(cfg: Config, s: Store, env: Env, cache: Cache, e: EventId, grant: Credentials, nonce: string,
                      w: Work)
    requires e in s.outbox.events && s.outbox.events[e].app in s.apps
  {
    var id, f := s.outbox.events[e].app, env.faults;
    var app, c := s.apps[id], if id in cache then cache[id] else grant;
    && w.store.live == (if id in cache then s.live else s.live[grant.id := Client(
         Registration(app.name, app.logo, app.callbacks, app.owner, ConfidentialCodeClient, StandardPolicy),
           grant.secret)])
    && if c.id == "" || c.secret == "" || EncryptCall in f || SaveCall in f
       then GivenBack(cfg, s, env, e, w) && w.cache == cache[id := c]
       else
         && DoneOrHeld(s, env, e, w) && w.cache == cache - {id}
         && w.store.apps == s.apps[id := ApprovalOf(app, c, nonce, env.now)]
         && (w.processed <==> CompleteCall !in f && AuditCall !in f) && (w.processed <==> w.error.None?)
         && w.store.audit == s.audit + if w.processed then [AuditEvent("system", AppProvisioned, id, env.now)] else []
  }

  lemma PassConcludes(cfg: Config, s: Store, env: Env, cache: Cache, e: EventId, grant: Credentials, nonce: string)
    requires e in s.outbox.events && s.outbox.events[e].kind.ProvisionApplication?
    requires ClaimCall !in env.faults && LoadCall !in env.faults && s.outbox.events[e].app in s.apps
    requires s.apps[s.outbox.events[e].app].status.Provisioning?
    requires s.outbox.events[e].app in cache || HydraCall !in env.faults
    ensures Concluded(cfg, s, env, cache, e, grant, nonce, P.RunOnce(cfg, s, env, cache, Some(e), grant, nonce))
  {
    hide Conclude, ApprovalOf;
    var id := s.outbox.events[e].app;
    var s1 := s.(outbox := Claimed(s.outbox, e, env.now));
    var c := if id in cache then cache[id] else grant;
    var live := if id in cache then s.live
                else s.live[grant.id := Client(RegistrationOf(s.apps[id], StandardPolicy), grant.secret)];
    assert id in cache ==> cache[id := c] == cache;
    assert cache[id := c] - {id} == cache - {id};
    ConcludeExactly(cfg, s1.(live := live), env, e, id, c, cache[id := c], nonce);
    assert P.RunOnce(cfg, s, env, cache, Some(e), grant, nonce)
        == P.Conclude(cfg, s1.(live := live), env, e, id, c, cache[id := c], nonce);
    hide RunOnce;
  }

  /** The pass gets as far as knowing the application's credentials. */
  predicate Knows(s: Store, env: Env, cache: Cache, e: EventId)
    requires e in s.outbox.events
  {
    var id := s.outbox.events[e].app;
    && LoadCall !in env.faults && id in s.apps && s.apps[id].status.Provisioning?
    && (id in cache || HydraCall !in env.faults)
  }

  /** The pass that does not finds its work done, or gives the event back. */
  predicate Stopped(cfg: Config, s: Store, env: Env, cache: Cache, e: EventId, w: Work)
    requires e in s.outbox.events
  {
    var id := s.outbox.events[e].app;
    && w.store.apps == s.apps && w.store.live == s.live && w.store.audit == s.audit
    && if LoadCall !in env.faults && id in s.apps && !s.apps[id].status.Provisioning?
       then DoneOrHeld(s, env, e, w) && w.cache == cache - {id} && w.processed && w.error.None?
       else GivenBack(cfg, s, env, e, w) && w.cache == cache
  }

  lemma PassStops(cfg: Config, s: Store, env: Env, cache: Cache, e: EventId, grant: Credentials, nonce: string)
    requires e in s.outbox.events && s.outbox.events[e].kind.ProvisionApplication?
    requires ClaimCall !in env.faults && !Knows(s, env, cache, e)
    ensures Stopped(cfg, s, env, cache, e, P.RunOnce(cfg, s, env, cache, Some(e), grant, nonce))
  {
    hide Conclude;
    var id := s.outbox.events[e].app;
    var s1 := s.(outbox := Claimed(s.outbox, e, env.now));
    var w := P.RunOnce(cfg, s, env, cache, Some(e), grant, nonce);
    if LoadCall !in env.faults && id in s.apps && !s.apps[id].status.Provisioning? {
      assert w == Work(MarkDone(s1, env, e), cache - {id}, true, None);
    } else {
      assert w.error.Some? && w == GiveBack(cfg, s1, env, e, cache, w.error.value);
    }
    hide RunOnce;
  }

  /** What a pass does with the provisioning event it picked. */
  lemma RunOnceExactly(cfg: Config, s: Store, env: Env, cache: Cache, e: EventId, grant: Credentials, nonce: string)
    requires e in s.outbox.events && s.outbox.events[e].kind.ProvisionApplication?
    ensures var w := P.RunOnce(cfg, s, env, cache, Some(e), grant, nonce);
            if ClaimCall in env.faults then w.store == s && w.cache == cache && !w.processed && w.error.Some?
            else if Knows(s, env, cache, e) then Concluded(cfg, s, env, cache, e, grant, nonce, w)
            else Stopped(cfg, s, env, cache, e, w)
  {
    hide Handle, Concluded, Stopped;
    if ClaimCall !in env.faults {
      if Knows(s, env, cache, e) {
        PassConcludes(cfg, s, env, cache, e, grant, nonce);
      } else {
        PassStops(cfg, s, env, cache, e, grant, nonce);
      }
    }
  }

  /** A pass that finds no event does nothing, and one that finds an event of another kind completes it. */
  lemma OtherPass(cfg: Config, s: Store, env: Env, cache: Cache, choice: Option<EventId>, grant: Credentials,
                  nonce: string)
    requires choice.Some? ==> choice.value in s.outbox.events && s.outbox.events[choice.value].kind.OtherKind?
    ensures var w := P.RunOnce(cfg, s, env, cache, choice, grant, nonce);
            && w.cache == cache && w.store.apps == s.apps && w.store.live == s.live && w.store.audit == s.audit
            && if ClaimCall in env.faults then w.store == s && !w.processed && w.error.Some?
               else if choice.None? then w.store == s && !w.processed && w.error.None?
               else DoneOrHeld(s, env, choice.value, w) && w.processed && w.error.Some?
  {
  }
}
