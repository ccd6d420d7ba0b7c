/** The delivery guarantees of the outbox over whole runs: spacing of claims, attempts and completion. */
module Delivery {
  import opened Common
  import opened Domain
  import opened Protocol
  import opened Lifecycle
  import opened Invariant
  import opened Steps
  import opened Runs

  function Min(a: int, b: int): int {
    if a <= b then a else b
  }

  lemma {:induction false} ClockGrows(cfg: Config, r: Run, i: nat, j: nat)
    requires ValidRun(cfg, r) && i < j < |r.states|
    ensures r.steps[i].env.now <= r.states[j].clock
  {
    At(cfg, r, j - 1);
    IssuedKept(cfg, r.states[j - 1], r.steps[j - 1]);
    if i < j - 1 {
      ClockGrows(cfg, r, i, j - 1);
    }
  }

  /** The event was claimed at t or later, and is completed, still held, or given back with the delay. */
  predicate HeldSince(cfg: Config, v: OutboxEvent, t: Time) {
    || v.completedAt.Some?
    || (v.claimedAt.Some? && v.claimedAt.value >= t)
    || (v.claimedAt.None? && v.availableAt >= t + cfg.retryDelay)
  }

  lemma {:induction false} StaysHeld(cfg: Config, r: Run, i: nat, j: nat, e: EventId)
    requires ValidRun(cfg, r) && i < j < |r.states| && ClaimsEvent(r.steps[i], e)
    ensures e in r.states[j].store.outbox.events
    ensures HeldSince(cfg, r.states[j].store.outbox.events[e], r.steps[i].env.now)
  {
    hide Base, Apply;
    At(cfg, r, j - 1);
    Parts(r.states[j - 1]);
    if i < j - 1 {
      StaysHeld(cfg, r, i, j - 1, e);
      ClockGrows(cfg, r, i, j - 1);
    }
    assert e in r.states[j - 1].store.outbox.events;
    assert r.steps[i].env.now <= r.steps[j - 1].env.now;
    EventStep(cfg, r.states[j - 1], r.steps[j - 1], e);
  }

  /** Two claims of one event are at least the retry delay or the claim timeout apart, whichever is shorter. */
  lemma ClaimsApart(cfg: Config, r: Run, i: nat, j: nat, e: EventId)
    requires ValidRun(cfg, r) && i < j < |r.steps| && ClaimsEvent(r.steps[i], e) && ClaimsEvent(r.steps[j], e)
    ensures r.steps[j].env.now - r.steps[i].env.now >= Min(cfg.retryDelay, 600_000_000_000)
  {
    StaysHeld(cfg, r, i, j, e);
    At(cfg, r, j);
  }

  /** A completed event stays completed, at the same instant, and is never claimed again. */
  lemma {:induction false} CompletedForGood(cfg: Config, r: Run, i: nat, j: nat, e: EventId)
    requires ValidRun(cfg, r) && i <= j < |r.states|
    requires e in r.states[i].store.outbox.events && r.states[i].store.outbox.events[e].completedAt.Some?
    ensures e in r.states[j].store.outbox.events
    ensures r.states[j].store.outbox.events[e].completedAt == r.states[i].store.outbox.events[e].completedAt
    ensures j < |r.steps| ==> !ClaimsEvent(r.steps[j], e)
  {
    hide Base, Apply;
    if i < j {
      CompletedForGood(cfg, r, i, j - 1, e);
      At(cfg, r, j - 1);
      Parts(r.states[j - 1]);
      EventStep(cfg, r.states[j - 1], r.steps[j - 1], e);
    }
    if j < |r.steps| {
      At(cfg, r, j);
    }
  }

  /** How many of the first n steps claimed the event. */
  function Claims(r: Run, e: EventId, n: nat): nat
    requires n <= |r.steps|
  {
    if n == 0 then 0 else Claims(r, e, n - 1) + if ClaimsEvent(r.steps[n - 1], e) then 1 else 0
  }

  /** An event's attempts are exactly the claims it has seen; an event not yet enqueued has seen none. */
  lemma {:induction false} AttemptsCountClaims(cfg: Config, r: Run, i: nat, e: EventId)
    requires ValidRun(cfg, r) && i < |r.states|
    ensures if e in r.states[i].store.outbox.events
            then r.states[i].store.outbox.events[e].attempts == Claims(r, e, i)
            else Claims(r, e, i) == 0
  {
    if i > 0 {
      AttemptsCountClaims(cfg, r, i - 1, e);
      At(cfg, r, i - 1);
      hide Apply;
      EventStep(cfg, r.states[i - 1], r.steps[i - 1], e);
    }
  }
}
