/**
 The application lifecycle as one transition function per public call (internal/apps, internal/reviews).
 Everything a call cannot compute is a parameter: the clock, random values, remote answers, identity
 look-ups and the set of dependency calls that fail.  A failing dependency call has no effect.
 */
module Protocol {
  import opened Common
  import opened Domain
  import opened Repositories
  import opened Hydra

  /** The places where a dependency can fail during a call. */
  datatype Site =
    | CountCall | RandomCall | CreateCall | LoadCall | ReloadCall | ReopenCall | TransitionCall | SaveCall
    | RollbackCall | RemoveCall | EnqueueCall | ClaimCall | CompleteCall | RetryCall
    | CreationAuditCall | AuditCall
    | EncryptCall | HydraCall

  datatype Error =
    | Unavailable | NotEligible | OpenLimit | NotOwner | InvalidState | NotDeletable | InvalidInput
    | ConfirmationRequired | BadCredentials | UndecryptableSecret | NotReviewer | SelfReview | ReasonRequired
    | UnsupportedKind | Missing | Conflicting

  /** How the services are wired.  `trim` removes surrounding white space (strings.TrimSpace). */
  datatype Config = Config(
    requireReview: bool, maxOpen: int, sensitiveWindow: int, retryDelay: int, trim: string -> string)

  /** What the repositories and the remote server hold. */
  datatype Store = Store(apps: Apps, outbox: Outbox, live: Clients, audit: seq<AuditEvent>)

  /** One reading of the clock and the dependency calls that fail. */
  datatype Env = Env(now: Time, faults: set<Site>)

  /** The identity bridge's answer about the caller: an error, or whether the caller may manage applications. */
  datatype Standing = LookupFailed | Standing(canManage: bool)

  /** The access controller's two answers; None is a failed look-up. */
  datatype Access = Access(isReviewer: Option<bool>, isAdmin: Option<bool>)

  datatype DraftInput = DraftInput(
    name: string, description: string, logo: string, callbacks: seq<string>, domains: seq<string>,
    requirePKCENonce: Option<bool>)

  datatype Outcome<T> = Outcome(store: Store, reply: Reply<T, Error>)

  function Logged(s: Store, env: Env, actor: string, action: Action, id: AppId): Store {
    s.(audit := s.audit + [AuditEvent(actor, action, id, env.now)])
  }

  /** Finish a call with its audit record; a failed audit write turns the reply into an error. */
  function Finish<T>(s: Store, env: Env, actor: string, action: Action, id: AppId, value: T): Outcome<T> {
    if AuditCall in env.faults then Outcome(s, Err(Unavailable))
    else Outcome(Logged(s, env, actor, action, id), Ok(value))
  }

  function EnsureEligible(cfg: Config, subject: string, standing: Standing): Option<Error> {
    if cfg.trim(subject) == "" then Some(NotEligible)
    else if standing.LookupFailed? then Some(Unavailable)
    else if !standing.canManage then Some(NotEligible)
    else None
  }

  function GetOwned(s: Store, env: Env, subject: string, id: AppId): (r: Reply<Application, Error>)
    ensures r.Ok? <==> LoadCall !in env.faults && id in s.apps && s.apps[id].owner == subject
    ensures r.Ok? ==> r.value == s.apps[id]
  {
    if LoadCall in env.faults then Err(Unavailable)
    else if id !in s.apps then Err(Missing)
    else if s.apps[id].owner != subject then Err(NotOwner)
    else Ok(s.apps[id])
  }

  function Confirmed(cfg: Config, confirmedAt: Time, now: Time): bool {
    confirmedAt != ZERO_TIME && 0 <= now - confirmedAt <= cfg.sensitiveWindow
  }

  function RegistrationOf(app: Application, policy: TokenPolicy): Registration {
    Registration(app.name, app.logo, app.callbacks, app.owner, ConfidentialCodeClient, policy)
  }

  function NewDraft(cfg: Config, id: AppId, subject: string, input: DraftInput, now: Time): Application {
    Application(id, subject, cfg.trim(input.name), cfg.trim(input.description), cfg.trim(input.logo), input.callbacks,
                input.domains, Draft,
                if input.requirePKCENonce.Some? then input.requirePKCENonce.value else true,
                "", NoCiphertext, 0, "", "", now, now)
  }

  function ProvisionEvent(id: AppId, eventId: EventId, now: Time): OutboxEvent {
    OutboxEvent(eventId, ProvisionKey(id), ProvisionApplication, id, 0, now, None, None, now)
  }

  /** Move a stored application to Provisioning and enqueue its event, rolling the status back when that fails. */
  function StartProvisioning(s: Store, env: Env, subject: string, app: Application,
                             eventId: EventId): Outcome<Application> {
    if TransitionCall in env.faults then Outcome(s, Err(Unavailable))
    else
      var started := Transitioned(s.apps, app.id, app.status, Provisioning, env.now);
      if started.Err? then Outcome(s, Err(Conflicting))
      else
        var s1 := s.(apps := started.value);
        if EnqueueCall in env.faults || ProvisionKey(app.id) in s.outbox.byKey then
          var back := started.value[app.id].(status := app.status, updatedAt := env.now);
          var s2 := if RollbackCall in env.faults then s1 else s1.(apps := s1.apps[app.id := back]);
          Outcome(s2, Err(if EnqueueCall in env.faults then Unavailable else Conflicting))
        else
          var s2 := s1.(outbox := Enqueued(s1.outbox, ProvisionEvent(app.id, eventId, env.now)));
          Finish(s2, env, subject, ProvisioningStarted, app.id, started.value[app.id])
  }

  function CreateDraft(cfg: Config, s: Store, env: Env, subject: string, standing: Standing,
                       input: DraftInput, inputValid: bool, id: AppId, eventId: EventId): Outcome<Application> {
    var refused := EnsureEligible(cfg, subject, standing);
    if refused.Some? then Outcome(s, Err(refused.value))
    else if CountCall in env.faults then Outcome(s, Err(Unavailable))
    else if |OpenApps(s.apps, subject)| >= cfg.maxOpen then Outcome(s, Err(OpenLimit))
    else if !inputValid then Outcome(s, Err(InvalidInput))
    else if RandomCall in env.faults || CreateCall in env.faults then Outcome(s, Err(Unavailable))
    else if id in s.apps then Outcome(s, Err(Conflicting))
    else
      var app := NewDraft(cfg, id, subject, input, env.now);
      AfterCreate(cfg, s.(apps := s.apps[id := app]), env, subject, app, eventId)
  }

  /** The second half of CreateDraft: record the creation and, without review, start provisioning at once. */
  function AfterCreate(cfg: Config, s: Store, env: Env, subject: string, app: Application,
                       eventId: EventId): Outcome<Application> {
    if CreationAuditCall in env.faults then Outcome(s, Err(Unavailable))
    else
      var s1 := Logged(s, env, subject, AppCreated, app.id);
      if cfg.requireReview then Outcome(s1, Ok(app))
      else StartProvisioning(s1, env, subject, app, eventId)
  }

  predicate Editable(status: Status) {
    status.Draft? || status.ChangesRequested? || status.Rejected? || status.Approved?
  }

  /** The registration an approved application's client gets when its owner edits it. */
  function EditedRegistration(cfg: Config, app: Application, input: DraftInput): Registration {
    Registration(cfg.trim(input.name), cfg.trim(input.logo), input.callbacks, app.owner, ConfidentialCodeClient,
                 StandardPolicy)
  }

  /** Push an edit of an approved application to its client; `echo` is the server's answer. */
  function SyncApprovedClient(cfg: Config, s: Store, env: Env, app: Application, input: DraftInput, echo: Credentials)
    : (r: (Store, Option<Error>))
    ensures r.0.apps == s.apps && r.0.outbox == s.outbox && r.0.audit == s.audit && r.0.live.Keys == s.live.Keys
  {
    if app.clientId == "" || app.secret.NoCiphertext? then (s, Some(BadCredentials))
    else
      var secret := Open(app.secret, Binding(app.id, app.clientId));
      if secret.None? then (s, Some(UndecryptableSecret))
      else if HydraCall in env.faults || app.clientId !in s.live then (s, Some(Unavailable))
      else
        var s1 := s.(live := Updated(s.live, app.clientId, Client(EditedRegistration(cfg, app, input), secret.value)));
        (s1, if echo.id != app.clientId || echo.secret != secret.value then Some(BadCredentials) else None)
  }

  function Edited(cfg: Config, app: Application, input: DraftInput, now: Time): Application {
    var reopened := if app.status.Approved? then app else app.(reviewNote := "", reviewedBy := "", status := Draft);
    reopened.(name := cfg.trim(input.name), description := cfg.trim(input.description), logo := cfg.trim(input.logo),
              callbacks := input.callbacks, domains := input.domains,
              requirePKCENonce := if input.requirePKCENonce.Some? then input.requirePKCENonce.value
                else app.requirePKCENonce,
              updatedAt := now)
  }

  function UpdateDraft(cfg: Config, s: Store, env: Env, subject: string, standing: Standing, id: AppId,
                       input: DraftInput, inputValid: bool, echo: Credentials): Outcome<Application> {
    var refused := EnsureEligible(cfg, subject, standing);
    if refused.Some? then Outcome(s, Err(refused.value))
    else
      var owned := GetOwned(s, env, subject, id);
      if owned.Err? then Outcome(s, Err(owned.error))
      else if !Editable(owned.value.status) then Outcome(s, Err(InvalidState))
      else if !inputValid then Outcome(s, Err(InvalidInput))
      else
        var app := owned.value;
        var (s1, failed) := if app.status.Approved? then SyncApprovedClient(cfg, s, env, app, input, echo)
          else (s, None);
        if failed.Some? then Outcome(s1, Err(failed.value))
        else if SaveCall in env.faults then Outcome(s1, Err(Unavailable))
        else
          var edited := Edited(cfg, app, input, env.now);
          var s2 := s1.(apps := s1.apps[id := edited]);
          Finish(s2, env, subject, AppUpdated, id, edited)
  }

  function Submit(cfg: Config, s: Store, env: Env, subject: string, standing: Standing, id: AppId,
                  eventId: EventId): Outcome<Application> {
    var refused := EnsureEligible(cfg, subject, standing);
    if refused.Some? then Outcome(s, Err(refused.value))
    else
      var owned := GetOwned(s, env, subject, id);
      if owned.Err? then Outcome(s, Err(owned.error))
      else
        var returned := owned.value.status.ChangesRequested? || owned.value.status.Rejected?;
        if returned && ReopenCall in env.faults then Outcome(s, Err(Unavailable))
        else
          var app := if returned then owned.value.(status := Draft, updatedAt := env.now) else owned.value;
          var s1 := if returned then s.(apps := s.apps[id := app]) else s;
          if !app.status.Draft? then Outcome(s1, Err(InvalidState))
          else if cfg.requireReview then
            if TransitionCall in env.faults then Outcome(s1, Err(Unavailable))
            else
              var submitted := app.(status := PendingReview, updatedAt := env.now);
              Finish(s1.(apps := s1.apps[id := submitted]), env, subject, AppSubmitted, id, submitted)
          else
            StartProvisioning(s1, env, subject, app, eventId)
  }

  function ViewSecret(cfg: Config, s: Store, env: Env, subject: string, id: AppId, confirmedAt: Time): Outcome<string> {
    var owned := GetOwned(s, env, subject, id);
    if owned.Err? then Outcome(s, Err(owned.error))
    else
      var app := owned.value;
      if !app.status.Approved? || app.clientId == "" || app.secret.NoCiphertext? then Outcome(s, Err(InvalidState))
      else if !Confirmed(cfg, confirmedAt, env.now) then Outcome(s, Err(ConfirmationRequired))
      else
        var secret := Open(app.secret, Binding(app.id, app.clientId));
        if secret.None? then Outcome(s, Err(UndecryptableSecret))
        else Finish(s, env, subject, SecretViewed, id, secret.value)
  }

  function RotateSecret(cfg: Config, s: Store, env: Env, subject: string, id: AppId, confirmedAt: Time,
                        plaintext: string, nonce: string, echo: Credentials): Outcome<Application> {
    var owned := GetOwned(s, env, subject, id);
    if owned.Err? then Outcome(s, Err(owned.error))
    else
      var app := owned.value;
      if !app.status.Approved? || app.clientId == "" then Outcome(s, Err(InvalidState))
      else if !Confirmed(cfg, confirmedAt, env.now) then Outcome(s, Err(ConfirmationRequired))
      else if RandomCall in env.faults || HydraCall in env.faults || app.clientId !in s.live
        then Outcome(s, Err(Unavailable))
      else
        var s1 := s.(live := Updated(s.live, app.clientId, Client(RegistrationOf(app, NoPolicy), plaintext)));
        if echo.id != app.clientId || echo.secret == "" then Outcome(s1, Err(BadCredentials))
        else if EncryptCall in env.faults || SaveCall in env.faults then Outcome(s1, Err(Unavailable))
        else
          var rotated := app.(secret := Sealed(echo.secret, Binding(app.id, app.clientId), nonce),
                              secretVersion := app.secretVersion + 1, updatedAt := env.now);
          Finish(s1.(apps := s1.apps[id := rotated]), env, subject, SecretRotated, id, rotated)
  }

  function Revoke(s: Store, env: Env, subject: string, id: AppId): Outcome<()> {
    var owned := GetOwned(s, env, subject, id);
    if owned.Err? then Outcome(s, Err(owned.error))
    else
      var app := owned.value;
      if !app.status.Approved? then Outcome(s, Err(InvalidState))
      else if HydraCall in env.faults then Outcome(s, Err(Unavailable))
      else
        var s1 := s.(live := s.live - {app.clientId});
        if TransitionCall in env.faults then Outcome(s1, Err(Unavailable))
        else
          Finish(s1.(apps := s1.apps[id := app.(status := Revoked, updatedAt := env.now)]),
                 env, subject, AppRevoked, id, ())
  }

  function Delete(cfg: Config, s: Store, env: Env, subject: string, standing: Standing, id: AppId): Outcome<()> {
    var refused := EnsureEligible(cfg, subject, standing);
    if refused.Some? then Outcome(s, Err(refused.value))
    else
      var owned := GetOwned(s, env, subject, id);
      if owned.Err? then Outcome(s, Err(owned.error))
      else
        var app := owned.value;
        if app.status.Provisioning? then Outcome(s, Err(NotDeletable))
        else if app.status.Approved? && app.clientId == "" then Outcome(s, Err(BadCredentials))
        else if app.status.Approved? && HydraCall in env.faults then Outcome(s, Err(Unavailable))
        else
          var s1 := if app.status.Approved? then s.(live := s.live - {app.clientId}) else s;
          if AuditCall in env.faults then Outcome(s1, Err(Unavailable))
          else
            var s2 := Logged(s1, env, subject, AppDeleted, id);
            if RemoveCall in env.faults then Outcome(s2, Err(Unavailable))
            else Outcome(s2.(apps := s2.apps - {id}), Ok(()))
  }

  function RequireReviewer(subject: string, access: Access): Option<Error> {
    if subject == "" then Some(NotReviewer)
    else if access.isReviewer.None? then Some(Unavailable)
    else if access.isReviewer.value then None
    else if access.isAdmin.None? then Some(Unavailable)
    else if !access.isAdmin.value then Some(NotReviewer)
    else None
  }

  function PrepareReview(cfg: Config, s: Store, env: Env, reviewer: string, access: Access, id: AppId,
                         reason: string): (r: Option<Error>)
    ensures r.None? ==>
              && id in s.apps && s.apps[id].status.PendingReview? && reviewer != "" && cfg.trim(reason) != ""
              && (s.apps[id].owner == reviewer ==> access.isAdmin == Some(true))
  {
    var refused := RequireReviewer(reviewer, access);
    if refused.Some? then refused
    else if cfg.trim(reason) == "" then Some(ReasonRequired)
    else if LoadCall in env.faults then Some(Unavailable)
    else if id !in s.apps then Some(Missing)
    else if s.apps[id].owner == reviewer && access.isAdmin.None? then Some(Unavailable)
    else if s.apps[id].owner == reviewer && !access.isAdmin.value then Some(SelfReview)
    else if !s.apps[id].status.PendingReview? then Some(InvalidState)
    else None
  }

  function Reviewed(cfg: Config, app: Application, reviewer: string, reason: string, status: Status,
                    now: Time): Application {
    app.(status := status, reviewedBy := reviewer, reviewNote := cfg.trim(reason), updatedAt := now)
  }

  function Approve(cfg: Config, s: Store, env: Env, reviewer: string, access: Access, id: AppId, reason: string,
                   eventId: EventId): Outcome<()> {
    var refused := PrepareReview(cfg, s, env, reviewer, access, id, reason);
    if refused.Some? then Outcome(s, Err(refused.value))
    else if ReloadCall in env.faults || TransitionCall in env.faults then Outcome(s, Err(Unavailable))
    else
      var s1 := s.(apps := s.apps[id := s.apps[id].(status := Provisioning, updatedAt := env.now)]);
      if SaveCall in env.faults then Outcome(s1, Err(Unavailable))
      else
        var s2 := s.(apps := s.apps[id := Reviewed(cfg, s.apps[id], reviewer, reason, Provisioning, env.now)]);
        if EnqueueCall in env.faults then Outcome(s2, Err(Unavailable))
        else if ProvisionKey(id) in s2.outbox.byKey then Outcome(s2, Err(Conflicting))
        else
          Finish(s2.(outbox := Enqueued(s2.outbox, ProvisionEvent(id, eventId, env.now))),
                 env, reviewer, AppApproved, id, ())
  }

  /** Reject and RequestChanges. */
  function Decide(cfg: Config, s: Store, env: Env, reviewer: string, access: Access, id: AppId, reason: string,
                  target: Status, action: Action): Outcome<()>
    requires ValidTransition(PendingReview, target)
  {
    var refused := PrepareReview(cfg, s, env, reviewer, access, id, reason);
    if refused.Some? then Outcome(s, Err(refused.value))
    else if ReloadCall in env.faults || TransitionCall in env.faults then Outcome(s, Err(Unavailable))
    else
      var s1 := s.(apps := s.apps[id := s.apps[id].(status := target, updatedAt := env.now)]);
      if SaveCall in env.faults then Outcome(s1, Err(Unavailable))
      else
        var s2 := s.(apps := s.apps[id := Reviewed(cfg, s.apps[id], reviewer, reason, target, env.now)]);
        Finish(s2, env, reviewer, action, id, ())
  }

  const SYSTEM_ACTOR := "system"

  type Cache = map<AppId, Credentials>

  datatype Work = Work(store: Store, cache: Cache, processed: bool, error: Option<Error>)

  /** Give the claimed event back, due again after the retry delay; a failed Retry leaves the claim in place. */
  function GiveBack(cfg: Config, s: Store, env: Env, event: EventId, cache: Cache, error: Error): Work {
    var s1 := if RetryCall in env.faults then s else s.(outbox := Retried(s.outbox, event, env.now + cfg.retryDelay));
    Work(s1, cache, false, Some(error))
  }

  function MarkDone(s: Store, env: Env, event: EventId): Store {
    if CompleteCall in env.faults then s else s.(outbox := Completed(s.outbox, event, env.now))
  }

  function ApprovedWith(app: Application, c: Credentials, nonce: string, now: Time): Application {
    app.(clientId := c.id, secret := Sealed(c.secret, Binding(app.id, c.id), nonce),
         secretVersion := 1, status := Approved, updatedAt := now)
  }

  /** The rest of a worker pass once the application's credentials are known and cached. */
  function Conclude(cfg: Config, s: Store, env: Env, event: EventId, id: AppId, c: Credentials, cache: Cache,
                    nonce: string): Work
    requires id in s.apps
  {
    if c.id == "" || c.secret == "" then GiveBack(cfg, s, env, event, cache, BadCredentials)
    else if EncryptCall in env.faults || SaveCall in env.faults then GiveBack(cfg, s, env, event, cache, Unavailable)
    else
      var s1 := s.(apps := s.apps[id := ApprovedWith(s.apps[id], c, nonce, env.now)]);
      if CompleteCall in env.faults then Work(s1, cache - {id}, false, Some(Unavailable))
      else
        var s2 := MarkDone(s1, env, event);
        if AuditCall in env.faults then Work(s2, cache - {id}, false, Some(Unavailable))
        else Work(Logged(s2, env, SYSTEM_ACTOR, AppProvisioned, id), cache - {id}, true, None)
  }

  /** The handling of the event that was just claimed. */
  function Handle(cfg: Config, s: Store, env: Env, event: EventId, cache: Cache, grant: Credentials,
                  nonce: string): Work
    requires event in s.outbox.events
  {
    var id := s.outbox.events[event].app;
    if s.outbox.events[event].kind != ProvisionApplication
      then Work(MarkDone(s, env, event), cache, true, Some(UnsupportedKind))
    else if LoadCall in env.faults then GiveBack(cfg, s, env, event, cache, Unavailable)
    else if id !in s.apps then GiveBack(cfg, s, env, event, cache, Missing)
    else if !s.apps[id].status.Provisioning? then Work(MarkDone(s, env, event), cache - {id}, true, None)
    else if id in cache then Conclude(cfg, s, env, event, id, cache[id], cache, nonce)
    else if HydraCall in env.faults then GiveBack(cfg, s, env, event, cache, Unavailable)
    else
      var s1 := s.(live := s.live[grant.id := Client(RegistrationOf(s.apps[id], StandardPolicy), grant.secret)]);
      Conclude(cfg, s1, env, event, id, grant, cache[id := grant], nonce)
  }

  /** One worker pass.  `choice` is the event ClaimNext picked; None means that it reported not-found. */
  function RunOnce(cfg: Config, s: Store, env: Env, cache: Cache, choice: Option<EventId>, grant: Credentials,
                   nonce: string): Work
    requires choice.Some? ==> choice.value in s.outbox.events
  {
    if ClaimCall in env.faults then Work(s, cache, false, Some(Unavailable))
    else if choice.None? then Work(s, cache, false, None)
    else Handle(cfg, s.(outbox := Claimed(s.outbox, choice.value, env.now)), env, choice.value, cache, grant, nonce)
  }
}
