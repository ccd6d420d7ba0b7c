/** The application service, the review service and the provisioning worker, as objects over the repositories. */
module Services {
  import opened Common
  import opened Domain
  import opened Repositories
  import opened Hydra
  import P = Protocol
  import opened Protocol

  /** internal/apps/service.go.  Each method is its transition function applied to the repositories' contents. */
  class Service {
    const apps: ApplicationRepository
    const outbox: OutboxRepository
    const audit: AuditRepository
    const hydra: Server
    const cfg: Config

    ghost function Snapshot(): Store
      reads apps, outbox, audit, hydra
    {
      Store(apps.data, outbox.Contents(), hydra.live, audit.data)
    }

    constructor (apps: ApplicationRepository, outbox: OutboxRepository, audit: AuditRepository, hydra: Server,
                 requireReview: bool, maxOpen: int, sensitiveWindow: int, retryDelay: int, trim: string -> string)
      ensures this.apps == apps && this.outbox == outbox && this.audit == audit && this.hydra == hydra
      ensures cfg.requireReview == requireReview && cfg.maxOpen > 0 && cfg.sensitiveWindow > 0
      ensures cfg.maxOpen == if maxOpen <= 0 then 3 else maxOpen
      ensures cfg.sensitiveWindow == if sensitiveWindow <= 0 then 300_000_000_000 else sensitiveWindow
    {
      this.apps, this.outbox, this.audit, this.hydra := apps, outbox, audit, hydra;
      this.cfg := Config(requireReview,
                         if maxOpen <= 0 then 3 else maxOpen,
                         if sensitiveWindow <= 0 then 5 * MINUTE else sensitiveWindow,
                         retryDelay, trim);
    }

    method Audit(site: Site, env: Env, actor: string, action: Action, id: AppId) returns (failed: bool)
      modifies audit
      ensures failed == (site in env.faults)
      ensures audit.data == if failed then old(audit.data)
              else old(audit.data) + [AuditEvent(actor, action, id, env.now)]
    {
      if site in env.faults {
        return true;
      }
      audit.Append(AuditEvent(actor, action, id, env.now));
      return false;
    }

    method GetOwned(env: Env, subject: string, id: AppId) returns (r: Reply<Application, Error>)
      ensures r == P.GetOwned(Snapshot(), env, subject, id)
    {
      if LoadCall in env.faults {
        return Err(Unavailable);
      }
      var found := apps.Get(id);
      if found.Err? {
        return Err(Missing);
      }
      if found.value.owner != subject {
        return Err(NotOwner);
      }
      return Ok(found.value);
    }

    method CreateDraft(env: Env, subject: string, standing: Standing, input: DraftInput, inputValid: bool,
                       id: AppId, eventId: EventId) returns (r: Reply<Application, Error>)
      requires eventId != ""
      requires apps.Keyed() && outbox.Keyed()
      modifies apps, outbox, audit
      ensures apps.Keyed() && outbox.Keyed()
      ensures Outcome(Snapshot(), r) == P.CreateDraft(cfg, old(Snapshot()), env, subject, standing, input, inputValid,
                                                      id, eventId)
    {
      var refused := EnsureEligible(cfg, subject, standing);
      if refused.Some? {
        return Err(refused.value);
      }
      if CountCall in env.faults {
        return Err(Unavailable);
      }
      var count := apps.CountOpenByOwner(subject);
      if count >= cfg.maxOpen {
        return Err(OpenLimit);
      }
      if !inputValid {
        return Err(InvalidInput);
      }
      if RandomCall in env.faults || CreateCall in env.faults {
        return Err(Unavailable);
      }
      var app := NewDraft(cfg, id, subject, input, env.now);
      var created := apps.Create(app, env.now);
      if created.Err? {
        return Err(Conflicting);
      }
      assert app.(createdAt := app.createdAt, updatedAt := app.updatedAt) == app;
      assert apps.data == old(apps.data)[id := app];
      r := AfterCreate(env, subject, app, eventId);
    }

    /** The second half of CreateDraft: record the creation and, without review, start provisioning at once. */
    method AfterCreate(env: Env, subject: string, app: Application, eventId: EventId)
      returns (r: Reply<Application, Error>)
      requires eventId != ""
      requires apps.Keyed() && outbox.Keyed()
      modifies apps, outbox, audit
      ensures apps.Keyed() && outbox.Keyed()
      ensures Outcome(Snapshot(), r) == P.AfterCreate(cfg, old(Snapshot()), env, subject, app, eventId)
    {
      var failed := Audit(CreationAuditCall, env, subject, AppCreated, app.id);
      if failed {
        return Err(Unavailable);
      }
      if !cfg.requireReview {
        r := StartProvisioning(env, subject, app, eventId);
        return;
      }
      return Ok(app);
    }

    method StartProvisioning(env: Env, subject: string, app: Application, eventId: EventId)
      returns (r: Reply<Application, Error>)
      requires eventId != ""
      requires apps.Keyed() && outbox.Keyed()
      modifies apps, outbox, audit
      ensures apps.Keyed() && outbox.Keyed()
      ensures Outcome(Snapshot(), r) == P.StartProvisioning(old(Snapshot()), env, subject, app, eventId)
    {
      if TransitionCall in env.faults {
        return Err(Unavailable);
      }
      var started := apps.Transition(app.id, app.status, Provisioning, env.now);
      if started.Err? {
        return Err(Conflicting);
      }
      var refused: Option<Error>;
      if EnqueueCall in env.faults {
        refused := Some(Unavailable);
      } else {
        var queued := outbox.Enqueue(ProvisionEvent(app.id, eventId, env.now), eventId, env.now);
        refused := if queued.Err? then Some(Conflicting) else None;
      }
      if refused.Some? {
        var back := started.value.(status := app.status, updatedAt := env.now);
        if RollbackCall !in env.faults {
          var _ := apps.Save(back);
        }
        return Err(refused.value);
      }
      var failed := Audit(AuditCall, env, subject, ProvisioningStarted, app.id);
      return if failed then Err(Unavailable) else Ok(started.value);
    }

    method UpdateDraft(env: Env, subject: string, standing: Standing, id: AppId, input: DraftInput,
                       inputValid: bool, echo: Credentials) returns (r: Reply<Application, Error>)
      requires apps.Keyed() && outbox.Keyed()
      modifies apps, audit, hydra
      ensures apps.Keyed() && outbox.Keyed()
      ensures Outcome(Snapshot(), r) == P.UpdateDraft(cfg, old(Snapshot()), env, subject, standing, id, input,
                                                      inputValid, echo)
    {
      var refused := EnsureEligible(cfg, subject, standing);
      if refused.Some? {
        return Err(refused.value);
      }
      var owned := GetOwned(env, subject, id);
      if owned.Err? {
        return Err(owned.error);
      }
      var app := owned.value;
      if !Editable(app.status) {
        return Err(InvalidState);
      }
      if !inputValid {
        return Err(InvalidInput);
      }
      if app.status.Approved? {
        var failed := SyncApprovedClient(env, app, input, echo);
        if failed.Some? {
          return Err(failed.value);
        }
      } else {
        app := app.(reviewNote := "", reviewedBy := "", status := Draft);
      }
      app := app.(name := cfg.trim(input.name), description := cfg.trim(input.description),
                  logo := cfg.trim(input.logo),
                  callbacks := input.callbacks, domains := input.domains);
      if input.requirePKCENonce.Some? {
        app := app.(requirePKCENonce := input.requirePKCENonce.value);
      }
      app := app.(updatedAt := env.now);
      if SaveCall in env.faults {
        return Err(Unavailable);
      }
      var _ := apps.Save(app);
      var failed := Audit(AuditCall, env, subject, AppUpdated, id);
      return if failed then Err(Unavailable) else Ok(app);
    }

    method SyncApprovedClient(env: Env, app: Application, input: DraftInput, echo: Credentials)
      returns (failed: Option<Error>)
      modifies hydra
      ensures (Snapshot(), failed) == P.SyncApprovedClient(cfg, old(Snapshot()), env, app, input, echo)
    {
      if app.clientId == "" || app.secret.NoCiphertext? {
        return Some(BadCredentials);
      }
      var secret := Open(app.secret, Binding(app.id, app.clientId));
      if secret.None? {
        return Some(UndecryptableSecret);
      }
      if HydraCall in env.faults || app.clientId !in hydra.live {
        return Some(Unavailable);
      }
      hydra.UpdateClient(app.clientId, EditedRegistration(cfg, app, input), secret.value);
      if echo.id != app.clientId || echo.secret != secret.value {
        return Some(BadCredentials);
      }
      return None;
    }

    method Submit(env: Env, subject: string, standing: Standing, id: AppId, eventId: EventId)
      returns (r: Reply<Application, Error>)
      requires eventId != ""
      requires apps.Keyed() && outbox.Keyed()
      modifies apps, outbox, audit
      ensures apps.Keyed() && outbox.Keyed()
      ensures Outcome(Snapshot(), r) == P.Submit(cfg, old(Snapshot()), env, subject, standing, id, eventId)
    {
      var refused := EnsureEligible(cfg, subject, standing);
      if refused.Some? {
        return Err(refused.value);
      }
      var owned := GetOwned(env, subject, id);
      if owned.Err? {
        return Err(owned.error);
      }
      var app := owned.value;
      if app.status.ChangesRequested? || app.status.Rejected? {
        if ReopenCall in env.faults {
          return Err(Unavailable);
        }
        var reopened := apps.Transition(id, app.status, Draft, env.now);
        app := reopened.value;
      }
      if !app.status.Draft? {
        return Err(InvalidState);
      }
      if cfg.requireReview {
        if TransitionCall in env.faults {
          return Err(Unavailable);
        }
        var submitted := apps.Transition(id, Draft, PendingReview, env.now);
        var failed := Audit(AuditCall, env, subject, AppSubmitted, id);
        return if failed then Err(Unavailable) else Ok(submitted.value);
      }
      r := StartProvisioning(env, subject, app, eventId);
    }

    method ViewSecret(env: Env, subject: string, id: AppId, confirmedAt: Time) returns (r: Reply<string, Error>)
      modifies audit
      ensures Outcome(Snapshot(), r) == P.ViewSecret(cfg, old(Snapshot()), env, subject, id, confirmedAt)
    {
      var owned := GetOwned(env, subject, id);
      if owned.Err? {
        return Err(owned.error);
      }
      var app := owned.value;
      if !app.status.Approved? || app.clientId == "" || app.secret.NoCiphertext? {
        return Err(InvalidState);
      }
      if !Confirmed(cfg, confirmedAt, env.now) {
        return Err(ConfirmationRequired);
      }
      var secret := Open(app.secret, Binding(app.id, app.clientId));
      if secret.None? {
        return Err(UndecryptableSecret);
      }
      var failed := Audit(AuditCall, env, subject, SecretViewed, id);
      return if failed then Err(Unavailable) else Ok(secret.value);
    }

    method RotateSecret(env: Env, subject: string, id: AppId, confirmedAt: Time, plaintext: string, nonce: string,
                        echo: Credentials) returns (r: Reply<Application, Error>)
      requires apps.Keyed() && outbox.Keyed()
      modifies apps, audit, hydra
      ensures apps.Keyed() && outbox.Keyed()
      ensures Outcome(Snapshot(), r) ==
              P.RotateSecret(cfg, old(Snapshot()), env, subject, id, confirmedAt, plaintext, nonce, echo)
    {
      var owned := GetOwned(env, subject, id);
      if owned.Err? {
        return Err(owned.error);
      }
      var app := owned.value;
      if !app.status.Approved? || app.clientId == "" {
        return Err(InvalidState);
      }
      if !Confirmed(cfg, confirmedAt, env.now) {
        return Err(ConfirmationRequired);
      }
      if RandomCall in env.faults || HydraCall in env.faults || app.clientId !in hydra.live {
        return Err(Unavailable);
      }
      hydra.UpdateClient(app.clientId, RegistrationOf(app, NoPolicy), plaintext);
      if echo.id != app.clientId || echo.secret == "" {
        return Err(BadCredentials);
      }
      if EncryptCall in env.faults || SaveCall in env.faults {
        return Err(Unavailable);
      }
      app := app.(secret := Sealed(echo.secret, Binding(app.id, app.clientId), nonce),
                  secretVersion := app.secretVersion + 1, updatedAt := env.now);
      var _ := apps.Save(app);
      var failed := Audit(AuditCall, env, subject, SecretRotated, id);
      return if failed then Err(Unavailable) else Ok(app);
    }

    method Revoke(env: Env, subject: string, id: AppId) returns (r: Reply<(), Error>)
      requires apps.Keyed() && outbox.Keyed()
      modifies apps, audit, hydra
      ensures apps.Keyed() && outbox.Keyed()
      ensures Outcome(Snapshot(), r) == P.Revoke(old(Snapshot()), env, subject, id)
    {
      var owned := GetOwned(env, subject, id);
      if owned.Err? {
        return Err(owned.error);
      }
      if !owned.value.status.Approved? {
        return Err(InvalidState);
      }
      if HydraCall in env.faults {
        return Err(Unavailable);
      }
      hydra.DeleteClient(owned.value.clientId);
      if TransitionCall in env.faults {
        return Err(Unavailable);
      }
      var _ := apps.Transition(id, Approved, Revoked, env.now);
      var failed := Audit(AuditCall, env, subject, AppRevoked, id);
      return if failed then Err(Unavailable) else Ok(());
    }

    method Delete(env: Env, subject: string, standing: Standing, id: AppId) returns (r: Reply<(), Error>)
      requires apps.Keyed() && outbox.Keyed()
      modifies apps, audit, hydra
      ensures apps.Keyed() && outbox.Keyed()
      ensures Outcome(Snapshot(), r) == P.Delete(cfg, old(Snapshot()), env, subject, standing, id)
    {
      var refused := EnsureEligible(cfg, subject, standing);
      if refused.Some? {
        return Err(refused.value);
      }
      var owned := GetOwned(env, subject, id);
      if owned.Err? {
        return Err(owned.error);
      }
      if owned.value.status.Provisioning? {
        return Err(NotDeletable);
      }
      if owned.value.status.Approved? {
        if owned.value.clientId == "" {
          return Err(BadCredentials);
        }
        if HydraCall in env.faults {
          return Err(Unavailable);
        }
        hydra.DeleteClient(owned.value.clientId);
      }
      var failed := Audit(AuditCall, env, subject, AppDeleted, id);
      if failed {
        return Err(Unavailable);
      }
      if RemoveCall in env.faults {
        return Err(Unavailable);
      }
      var _ := apps.Delete(id);
      return Ok(());
    }
  }

  /** internal/reviews/service.go. */
  class ReviewService {
    const apps: ApplicationRepository
    const outbox: OutboxRepository
    const audit: AuditRepository
    const hydra: Server
    const cfg: Config

    ghost function Snapshot(): Store
      reads apps, outbox, audit, hydra
    {
      Store(apps.data, outbox.Contents(), hydra.live, audit.data)
    }

    constructor (apps: ApplicationRepository, outbox: OutboxRepository, audit: AuditRepository, hydra: Server,
                 cfg: Config)
      ensures this.apps == apps && this.outbox == outbox && this.audit == audit && this.hydra == hydra
              && this.cfg == cfg
    {
      this.apps, this.outbox, this.audit, this.hydra, this.cfg := apps, outbox, audit, hydra, cfg;
    }

    method PrepareReview(env: Env, reviewer: string, access: Access, id: AppId, reason: string)
      returns (r: Option<Error>)
      ensures r == P.PrepareReview(cfg, Snapshot(), env, reviewer, access, id, reason)
    {
      var refused := RequireReviewer(reviewer, access);
      if refused.Some? {
        return refused;
      }
      if cfg.trim(reason) == "" {
        return Some(ReasonRequired);
      }
      if LoadCall in env.faults {
        return Some(Unavailable);
      }
      var found := apps.Get(id);
      if found.Err? {
        return Some(Missing);
      }
      if found.value.owner == reviewer {
        if access.isAdmin.None? {
          return Some(Unavailable);
        }
        if !access.isAdmin.value {
          return Some(SelfReview);
        }
      }
      return if found.value.status.PendingReview? then None else Some(InvalidState);
    }

    method Approve(env: Env, reviewer: string, access: Access, id: AppId, reason: string, eventId: EventId)
      returns (r: Reply<(), Error>)
      requires eventId != ""
      requires apps.Keyed() && outbox.Keyed()
      modifies apps, outbox, audit
      ensures apps.Keyed() && outbox.Keyed()
      ensures Outcome(Snapshot(), r) == P.Approve(cfg, old(Snapshot()), env, reviewer, access, id, reason, eventId)
    {
      hide P.PrepareReview;
      var refused := PrepareReview(env, reviewer, access, id, reason);
      if refused.Some? {
        return Err(refused.value);
      }
      if ReloadCall in env.faults || TransitionCall in env.faults {
        return Err(Unavailable);
      }
      var app := apps.Get(id);
      var _ := apps.Transition(id, PendingReview, Provisioning, env.now);
      if SaveCall in env.faults {
        return Err(Unavailable);
      }
      var _ := apps.Save(app.value.(reviewedBy := reviewer, reviewNote := cfg.trim(reason), status := Provisioning,
                                    updatedAt := env.now));
      assert apps.data == old(apps.data)[id := Reviewed(cfg, old(apps.data)[id], reviewer, reason, Provisioning,
                                                        env.now)];
      if EnqueueCall in env.faults {
        return Err(Unavailable);
      }
      var queued := outbox.Enqueue(ProvisionEvent(id, eventId, env.now), eventId, env.now);
      if queued.Err? {
        return Err(Conflicting);
      }
      if AuditCall in env.faults {
        return Err(Unavailable);
      }
      audit.Append(AuditEvent(reviewer, AppApproved, id, env.now));
      return Ok(());
    }

    /** Reject is Decide with Rejected, RequestChanges is Decide with ChangesRequested. */
    method Decide(env: Env, reviewer: string, access: Access, id: AppId, reason: string, target: Status, action: Action)
      returns (r: Reply<(), Error>)
      requires target.Rejected? || target.ChangesRequested?
      requires apps.Keyed() && outbox.Keyed()
      modifies apps, audit
      ensures apps.Keyed() && outbox.Keyed()
      ensures Outcome(Snapshot(), r) == P.Decide(cfg, old(Snapshot()), env, reviewer, access, id, reason, target,
                                                 action)
    {
      hide P.PrepareReview;
      var refused := PrepareReview(env, reviewer, access, id, reason);
      if refused.Some? {
        return Err(refused.value);
      }
      if ReloadCall in env.faults || TransitionCall in env.faults {
        return Err(Unavailable);
      }
      var app := apps.Get(id);
      var _ := apps.Transition(id, PendingReview, target, env.now);
      if SaveCall in env.faults {
        return Err(Unavailable);
      }
      var _ := apps.Save(app.value.(status := target, reviewedBy := reviewer, reviewNote := cfg.trim(reason),
                                    updatedAt := env.now));
      assert apps.data == old(apps.data)[id := Reviewed(cfg, old(apps.data)[id], reviewer, reason, target, env.now)];
      if AuditCall in env.faults {
        return Err(Unavailable);
      }
      audit.Append(AuditEvent(reviewer, action, id, env.now));
      return Ok(());
    }
  }

  /** internal/apps/provisioner.go. */
  class Provisioner {
    const apps: ApplicationRepository
    const outbox: OutboxRepository
    const audit: AuditRepository
    const hydra: Server
    const cfg: Config
    var credentials: Cache

    ghost function Snapshot(): Store
      reads apps, outbox, audit, hydra
    {
      Store(apps.data, outbox.Contents(), hydra.live, audit.data)
    }

    constructor (apps: ApplicationRepository, outbox: OutboxRepository, audit: AuditRepository, hydra: Server,
                 cfg: Config, retryDelay: int)
      ensures this.apps == apps && this.outbox == outbox && this.audit == audit && this.hydra == hydra
      ensures credentials == map[]
      ensures this.cfg.retryDelay == (if retryDelay <= 0 then 60_000_000_000 else retryDelay) && this.cfg.retryDelay > 0
    {
      this.apps, this.outbox, this.audit, this.hydra := apps, outbox, audit, hydra;
      this.cfg := cfg.(retryDelay := if retryDelay <= 0 then MINUTE else retryDelay);
      credentials := map[];
    }

    method GiveBack(env: Env, event: EventId)
      modifies outbox
      ensures outbox.Contents() == if RetryCall in env.faults then old(outbox.Contents())
                                   else Retried(old(outbox.Contents()), event, env.now + cfg.retryDelay)
    {
      if RetryCall !in env.faults {
        var _ := outbox.Retry(event, env.now + cfg.retryDelay);
      }
    }

    /** One worker pass, with the event it picked as a ghost result. */
    method RunOnce(env: Env, grant: Credentials, nonce: string)
      returns (processed: bool, error: Option<Error>, ghost choice: Option<EventId>)
      requires apps.Keyed() && outbox.Keyed()
      modifies this, apps, outbox, audit, hydra
      ensures apps.Keyed() && outbox.Keyed()
      ensures ClaimCall !in env.faults ==>
                && (choice.None? <==> forall e :: e in old(outbox.data) ==> !Eligible(old(outbox.data)[e], env.now))
                && (choice.Some? ==>
                      choice.value in old(outbox.data) && Eligible(old(outbox.data)[choice.value], env.now))
      ensures choice.Some? ==> choice.value in old(outbox.data)
      ensures Work(Snapshot(), credentials, processed, error) ==
              P.RunOnce(cfg, old(Snapshot()), env, old(credentials), choice, grant, nonce)
    {
      hide P.Conclude;
      choice := None;
      if ClaimCall in env.faults {
        return false, Some(Unavailable), None;
      }
      var claim;
      claim, choice := outbox.ClaimNext(env.now);
      if claim.Err? {
        return false, None, choice;
      }
      var event := claim.value;
      if event.kind != ProvisionApplication {
        if CompleteCall !in env.faults {
          var _ := outbox.Complete(event.id, env.now);
        }
        return true, Some(UnsupportedKind), choice;
      }
      if LoadCall in env.faults {
        GiveBack(env, event.id);
        return false, Some(Unavailable), choice;
      }
      var found := apps.Get(event.app);
      if found.Err? {
        GiveBack(env, event.id);
        return false, Some(Missing), choice;
      }
      var app := found.value;
      if !app.status.Provisioning? {
        credentials := credentials - {app.id};
        if CompleteCall !in env.faults {
          var _ := outbox.Complete(event.id, env.now);
        }
        return true, None, choice;
      }
      if app.id !in credentials {
        if HydraCall in env.faults {
          GiveBack(env, event.id);
          return false, Some(Unavailable), choice;
        }
        hydra.CreateClient(RegistrationOf(app, StandardPolicy), grant);
        credentials := credentials[app.id := grant];
      }
      processed, error := Conclude(env, event.id, app, nonce);
    }

    /** Approve the application with its cached credentials, then forget them and complete the event. */
    method Conclude(env: Env, event: EventId, found: Application, nonce: string)
      returns (processed: bool, error: Option<Error>)
      requires apps.Keyed() && outbox.Keyed()
      requires found.id in credentials && found.id in apps.data && apps.data[found.id] == found
      modifies this, apps, outbox, audit
      ensures apps.Keyed() && outbox.Keyed()
      ensures Work(Snapshot(), credentials, processed, error) ==
              P.Conclude(cfg, old(Snapshot()), env, event, found.id, old(credentials)[found.id], old(credentials),
                         nonce)
    {
      var app, known := found, credentials[found.id];
      if known.id == "" || known.secret == "" {
        GiveBack(env, event);
        return false, Some(BadCredentials);
      }
      app := app.(clientId := known.id);
      if EncryptCall in env.faults {
        GiveBack(env, event);
        return false, Some(Unavailable);
      }
      app := app.(secret := Sealed(known.secret, Binding(app.id, app.clientId), nonce));
      app := app.(secretVersion := 1, status := Approved, updatedAt := env.now);
      if SaveCall in env.faults {
        GiveBack(env, event);
        return false, Some(Unavailable);
      }
      var _ := apps.Save(app);
      credentials := credentials - {app.id};
      if CompleteCall in env.faults {
        return false, Some(Unavailable);
      }
      var _ := outbox.Complete(event, env.now);
      if AuditCall in env.faults {
        return false, Some(Unavailable);
      }
      audit.Append(AuditEvent(SYSTEM_ACTOR, AppProvisioned, app.id, env.now));
      return true, None;
    }
  }
}
