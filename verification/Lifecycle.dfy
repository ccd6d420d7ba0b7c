/** The whole system as a state machine: every public call is one step, with arbitrary dependency failures. */
module Lifecycle {
  import opened Common
  import opened Domain
  import opened Repositories
  import opened Hydra
  import P = Protocol
  import opened Protocol

  /**
   `issued` remembers every application identifier ever drawn and `granted` every client that was ever live;
   `clock` is the last reading of the clock.
   */
  datatype State = State(store: Store, cache: Cache, issued: set<AppId>, granted: set<ClientId>, clock: Time)

  const EMPTY_STORE := Store(map[], Outbox(map[], map[]), map[], [])

  function Initial(clock: Time): State {
    State(EMPTY_STORE, map[], {}, {}, clock)
  }

  datatype Op =
    | CreateDraft(subject: string, standing: Standing, input: DraftInput, inputValid: bool, id: AppId, eventId: EventId)
    | UpdateDraft(subject: string, standing: Standing, id: AppId, input: DraftInput, inputValid: bool,
                  echo: Credentials)
    | Submit(subject: string, standing: Standing, id: AppId, eventId: EventId)
    | ViewSecret(subject: string, id: AppId, confirmedAt: Time)
    | RotateSecret(subject: string, id: AppId, confirmedAt: Time, plaintext: string, nonce: string, echo: Credentials)
    | Revoke(subject: string, id: AppId)
    | Delete(subject: string, standing: Standing, id: AppId)
    | Approve(reviewer: string, access: Access, id: AppId, reason: string, eventId: EventId)
    | Reject(reviewer: string, access: Access, id: AppId, reason: string)
    | RequestChanges(reviewer: string, access: Access, id: AppId, reason: string)
    | RunOnce(choice: Option<EventId>, grant: Credentials, nonce: string)

  datatype Step = Step(env: Env, op: Op)

  /** The store after a step other than RunOnce. */
  function StoreAfter(cfg: Config, s: Store, step: Step): Store
    requires !step.op.RunOnce?
  {
    var env := step.env;
    match step.op
    case CreateDraft(subject, standing, input, valid, id, eventId) =>
      P.CreateDraft(cfg, s, env, subject, standing, input, valid, id, eventId).store
    case UpdateDraft(subject, standing, id, input, valid, echo) =>
      P.UpdateDraft(cfg, s, env, subject, standing, id, input, valid, echo).store
    case Submit(subject, standing, id, eventId) => P.Submit(cfg, s, env, subject, standing, id, eventId).store
    case ViewSecret(subject, id, at) => P.ViewSecret(cfg, s, env, subject, id, at).store
    case RotateSecret(subject, id, at, plaintext, nonce, echo) =>
      P.RotateSecret(cfg, s, env, subject, id, at, plaintext, nonce, echo).store
    case Revoke(subject, id) => P.Revoke(s, env, subject, id).store
    case Delete(subject, standing, id) => P.Delete(cfg, s, env, subject, standing, id).store
    case Approve(reviewer, access, id, reason, eventId) =>
      P.Approve(cfg, s, env, reviewer, access, id, reason, eventId).store
    case Reject(reviewer, access, id, reason) =>
      P.Decide(cfg, s, env, reviewer, access, id, reason, Rejected, AppRejected).store
    case RequestChanges(reviewer, access, id, reason) =>
      P.Decide(cfg, s, env, reviewer, access, id, reason, ChangesRequested, ChangesAsked).store
  }

  function Apply(cfg: Config, st: State, step: Step): State
    requires step.op.RunOnce? && step.op.choice.Some? ==> step.op.choice.value in st.store.outbox.events
  {
    if step.op.RunOnce? then
      var w := P.RunOnce(cfg, st.store, step.env, st.cache, step.op.choice, step.op.grant, step.op.nonce);
      State(w.store, w.cache, st.issued, st.granted + w.store.live.Keys, step.env.now)
    else
      State(StoreAfter(cfg, st.store, step), st.cache,
            if step.op.CreateDraft? then st.issued + {step.op.id} else st.issued, st.granted, step.env.now)
  }

  /** Drawn event identifiers are new and not empty. */
  predicate FreshEvent(st: State, e: EventId) {
    e != "" && e !in st.store.outbox.events
  }

  /**
   What the environment guarantees of a step: the clock does not run backwards, drawn identifiers and the
   identifiers of new remote clients are new, ClaimNext picks an eligible event exactly when there is one,
   and an update of a client is answered with the credentials that were sent.
   */
  ghost predicate Allowed(st: State, step: Step) {
    && st.clock <= step.env.now
    && match step.op
       case CreateDraft(_, _, _, _, id, eventId) => id !in st.issued && FreshEvent(st, eventId)
       case Submit(_, _, _, eventId) => FreshEvent(st, eventId)
       case Approve(_, _, _, _, eventId) => FreshEvent(st, eventId)
       case UpdateDraft(_, _, id, _, _, echo) =>
         id in st.store.apps && st.store.apps[id].secret.Sealed? ==>
           echo == Credentials(st.store.apps[id].clientId, st.store.apps[id].secret.plaintext)
       case RotateSecret(_, id, _, plaintext, _, echo) =>
         plaintext != "" && (id in st.store.apps ==> echo == Credentials(st.store.apps[id].clientId, plaintext))
       case RunOnce(choice, grant, _) =>
         && grant.id !in st.granted
         && (choice.Some? ==>
               && choice.value in st.store.outbox.events
               && Eligible(st.store.outbox.events[choice.value], step.env.now))
         && (choice.None? && ClaimCall !in step.env.faults ==>
               forall e :: e in st.store.outbox.events ==> !Eligible(st.store.outbox.events[e], step.env.now))
       case _ => true
  }

  /** A run: states joined by allowed steps, starting from the empty system. */
  datatype Run = Run(states: seq<State>, steps: seq<Step>)

  ghost predicate ValidRun(cfg: Config, r: Run) {
    && |r.states| == |r.steps| + 1
    && r.states[0] == Initial(r.states[0].clock)
    && forall i :: 0 <= i < |r.steps| ==> StepAt(cfg, r, i)
  }

  ghost predicate StepAt(cfg: Config, r: Run, i: nat)
    requires i < |r.steps| < |r.states|
  {
    Allowed(r.states[i], r.steps[i]) && r.states[i + 1] == Apply(cfg, r.states[i], r.steps[i])
  }
}
