/** Application records, their lifecycle, outbox events and audit records (internal/domain). */
module Domain {
  import opened Common

  type AppId = string
  type ClientId = string
  type EventId = string

  datatype Status =
    | Draft | PendingReview | Provisioning | Approved | Rejected | ChangesRequested | Revoked

  /** What a sealed client secret is bound to. */
  datatype Binding = Binding(app: AppId, client: ClientId)

  /** The associated data that a binding stands for. */
  function AssociatedData(b: Binding): string {
    b.app + ":" + b.client
  }

  /** As drawn application identifiers hold no colon, the associated data determines the binding. */
  lemma AssociatedDataInjective(a: Binding, b: Binding)
    requires ':' !in a.app && ':' !in b.app
    requires AssociatedData(a) == AssociatedData(b)
    ensures a == b
  {
    var s := AssociatedData(a);
    assert s[|a.app|] == ':' && forall i :: 0 <= i < |a.app| ==> s[i] == a.app[i] != ':';
    assert s[|b.app|] == ':' && forall i :: 0 <= i < |b.app| ==> s[i] == b.app[i] != ':';
    assert a.app == s[..|a.app|] && b.app == s[..|b.app|];
    assert a.client == s[|a.app| + 1..] && b.client == s[|b.app| + 1..];
  }

  /** A value sealed by the encryption box.  Opening it needs the binding it was sealed with. */
  datatype Ciphertext = NoCiphertext | Sealed(plaintext: string, binding: Binding, nonce: string)

  function Open(c: Ciphertext, binding: Binding): (r: Option<string>)
    ensures r.Some? <==> c.Sealed? && c.binding == binding
    ensures r.Some? ==> r.value == c.plaintext
  {
    if c.Sealed? && c.binding == binding then Some(c.plaintext) else None
  }

  /** Opening with associated data as text, which is what the encryption box does. */
  function OpenText(c: Ciphertext, data: string): Option<string> {
    if c.Sealed? && AssociatedData(c.binding) == data then Some(c.plaintext) else None
  }

  /**
   Under colon-free application identifiers, opening by text is opening by binding: no other application or client
   fits.
   */
  lemma OpensByText(c: Ciphertext, b: Binding)
    requires ':' !in b.app && (c.Sealed? ==> ':' !in c.binding.app)
    ensures OpenText(c, AssociatedData(b)) == Open(c, b)
  {
    if c.Sealed? && AssociatedData(c.binding) == AssociatedData(b) {
      AssociatedDataInjective(c.binding, b);
    }
  }

  datatype Application = Application(
    id: AppId, owner: string, name: string, description: string, logo: string,
    callbacks: seq<string>, domains: seq<string>, status: Status, requirePKCENonce: bool,
    clientId: ClientId, secret: Ciphertext, secretVersion: int,
    reviewNote: string, reviewedBy: string, createdAt: Time, updatedAt: Time)

  predicate ValidTransition(from: Status, to: Status) {
    match from
    case Draft => to.PendingReview? || to.Provisioning?
    case PendingReview => to.Provisioning? || to.Rejected? || to.ChangesRequested?
    case Provisioning => to.Approved? || to.Rejected?
    case Approved => to.Revoked?
    case Rejected => to.Draft?
    case ChangesRequested => to.Draft?
    case Revoked => false
  }

  predicate IsOpen(status: Status) {
    status.Draft? || status.PendingReview? || status.Provisioning? || status.ChangesRequested?
  }

  /** The edges of the lifecycle, and the statuses that count as open. */
  lemma LifecycleEdges(from: Status, to: Status)
    ensures ValidTransition(from, to) <==>
              (from, to) in {(Draft, PendingReview), (Draft, Provisioning), (PendingReview, Provisioning),
                             (PendingReview, Rejected), (PendingReview, ChangesRequested), (Provisioning, Approved),
                             (Provisioning, Rejected), (Approved, Revoked), (Rejected, Draft),
                               (ChangesRequested, Draft)}
    ensures IsOpen(from) <==> from in {Draft, PendingReview, Provisioning, ChangesRequested}
  {
  }

  /** A chain of checked transitions; a single status is the empty path. */
  ghost predicate IsPath(p: seq<Status>) {
    |p| > 0 && forall i :: 0 <= i < |p| - 1 ==> ValidTransition(p[i], p[i + 1])
  }

  ghost predicate Leads(from: Status, to: Status) {
    exists p: seq<Status> :: IsPath(p) && p[0] == from && p[|p| - 1] == to
  }

  lemma LeadsRefl(a: Status)
    ensures Leads(a, a)
  {
    assert IsPath([a]) && [a][0] == a;
  }

  lemma LeadsEdge(a: Status, b: Status)
    requires ValidTransition(a, b)
    ensures Leads(a, b)
  {
    assert IsPath([a, b]) && [a, b][0] == a && [a, b][1] == b;
  }

  lemma LeadsTrans(a: Status, b: Status, c: Status)
    requires Leads(a, b) && Leads(b, c)
    ensures Leads(a, c)
  {
    var p: seq<Status> :| IsPath(p) && p[0] == a && p[|p| - 1] == b;
    var q: seq<Status> :| IsPath(q) && q[0] == b && q[|q| - 1] == c;
    var r := p + q[1..];
    forall i | 0 <= i < |r| - 1 ensures ValidTransition(r[i], r[i + 1]) {
      if i < |p| - 1 {
      } else if i == |p| - 1 {
        assert r[i] == q[0] && r[i + 1] == q[1];
      } else {
        assert r[i] == q[i - |p| + 1] && r[i + 1] == q[i - |p| + 2];
      }
    }
    assert IsPath(r) && r[0] == a && r[|r| - 1] == c;
  }

  /** The kind field of an event; the worker knows only "application.provision". */
  datatype Kind = ProvisionApplication | OtherKind(name: string)

  datatype OutboxEvent = OutboxEvent(
    id: EventId, key: Key, kind: Kind, app: AppId, attempts: int,
    availableAt: Time, claimedAt: Option<Time>, completedAt: Option<Time>, createdAt: Time)

  const CLAIM_TIMEOUT: int := 10 * MINUTE

  /** An event's idempotency key: none, or that of an application's provisioning. */
  datatype Key = NoKey | ProvisionKey(app: AppId) | OtherKey(text: string)

  function ProvisionKeyText(id: AppId): string {
    "application:" + id + ":provision"
  }

  /** Distinct applications have distinct key texts. */
  lemma ProvisionKeyInjective(a: AppId, b: AppId)
    requires ProvisionKeyText(a) == ProvisionKeyText(b)
    ensures a == b
  {
    var p, q := "application:", ":provision";
    assert a == ProvisionKeyText(a)[|p|..|ProvisionKeyText(a)| - |q|];
    assert b == ProvisionKeyText(b)[|p|..|ProvisionKeyText(b)| - |q|];
  }

  datatype Action =
    | AppCreated | AppUpdated | AppSubmitted | ProvisioningStarted | SecretViewed | SecretRotated | AppRevoked
    | AppDeleted | AppApproved | AppRejected | ChangesAsked | AppProvisioned

  datatype AuditEvent = AuditEvent(actor: string, action: Action, app: AppId, createdAt: Time)
}
