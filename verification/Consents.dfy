/** Consent decisions and the claims a token yields (internal/oauth/consent.go, internal/oauth/userinfo.go). */
module Consents {
  import opened Common
  import opened Domain
  import opened Scopes
  import R = Repositories
  import L = Lifecycle
  import I = Invariant
  import U = Users

  type Subject = string

  datatype Consent = Consent(subject: Subject, app: AppId, scopes: seq<string>, remember: bool, grantedAt: Time,
                             lastUsedAt: Time)

  datatype Key = Key(subject: Subject, app: AppId)

  function KeyText(k: Key): string {
    k.subject + ("\0" + k.app)
  }

  /** As subjects hold no zero character, the text of a key determines it. */
  lemma KeyTextInjective(a: Key, b: Key)
    requires '\0' !in a.subject && '\0' !in b.subject && KeyText(a) == KeyText(b)
    ensures a == b
  {
    var s := KeyText(a);
    FirstZero(s, a);
    FirstZero(s, b);
  }

  lemma FirstZero(s: string, k: Key)
    requires s == KeyText(k) && '\0' !in k.subject
    ensures |k.subject| < |s| && s[|k.subject|] == '\0' && (forall i :: 0 <= i < |k.subject| ==> s[i] != '\0')
    ensures k.subject == s[..|k.subject|] && k.app == s[|k.subject| + 1..]
  {
    assert forall i :: 0 <= i < |k.subject| ==> s[i] == k.subject[i];
  }

  type Book = map<Key, Consent>

  /**
   An acceptance the authorization server took: what was granted, out of what request, and the e-mail put in the ID
   token.
   */
  datatype Grant = Grant(
    subject: Subject, app: AppId, requested: seq<string>, scopes: seq<string>, remember: bool,
      idTokenEmail: Option<string>, at: Time)

  class ConsentRepository {
    var data: Book

    constructor ()
      ensures data == map[]
    {
      data := map[];
    }

    method Put(consent: Consent)
      modifies this
      ensures data == old(data)[Key(consent.subject, consent.app) := consent]
    {
      data := data[Key(consent.subject, consent.app) := consent];
    }

    method Get(subject: Subject, app: AppId) returns (r: Option<Consent>)
      ensures r == if Key(subject, app) in data then Some(data[Key(subject, app)]) else None
    {
      r := if Key(subject, app) in data then Some(data[Key(subject, app)]) else None;
    }

    method Delete(subject: Subject, app: AppId)
      modifies this
      ensures data == old(data) - {Key(subject, app)}
    {
      data := data - {Key(subject, app)};
    }
  }

  /** The authorization server's record of accepted consent challenges. */
  class AuthorizationServer {
    var grants: seq<Grant>

    constructor ()
      ensures grants == []
    {
      grants := [];
    }

    method AcceptConsent(grant: Grant)
      modifies this
      ensures grants == old(grants) + [grant]
    {
      grants := grants + [grant];
    }
  }

  datatype Error = Unavailable | BadScopes(why: ScopeError) | AppUnavailable | ConsentDenied

  datatype Fault = LookupFault | ReloadFault | PutFault | HydraFault | DeleteFault

  datatype ConsentRequest = ConsentRequest(subject: Subject, clientId: ClientId, requestedScope: seq<string>)

  /**
   A call of Accept with the answers it gets: the pending request, the records its two look-ups of the request's
   client find, and the user's current profile.  None is a failed call or a look-up that finds nothing.
   */
  datatype Call = Call(
    now: Time, subject: Subject, granted: seq<string>, remember: bool, request: Option<ConsentRequest>,
    app: Option<Application>, again: Option<Application>, status: Option<U.Profile>, faults: set<Fault>)

  /** What a look-up by client identifier may answer: a record with that client, or nothing when there is none. */
  ghost predicate Finds(apps: R.Apps, client: ClientId, fails: bool, found: Option<Application>) {
    if found.Some? then !fails && found.value.clientId == client && exists a :: a in apps && apps[a] == found.value
    else fails || forall a :: a in apps ==> apps[a].clientId != client
  }

  ghost predicate LooksUp(apps: R.Apps, call: Call) {
    call.request.Some? ==>
      && Finds(apps, call.request.value.clientId, LookupFault in call.faults, call.app)
      && Finds(apps, call.request.value.clientId, ReloadFault in call.faults, call.again)
  }

  function Request(call: Call): Reply<ConsentRequest, Error> {
    if call.request.None? then Err(Unavailable)
    else
      var scopes := Filter(call.request.value.requestedScope);
      if scopes.Err? then Err(BadScopes(scopes.error))
      else if call.app.None? then Err(Unavailable)
      else if !call.app.value.status.Approved? || call.app.value.clientId == "" then Err(AppUnavailable)
      else Ok(call.request.value)
  }

  /** The checks of Accept up to the first write: the grant it would make, or why not. */
  function Selected(call: Call): (r: Reply<Grant, Error>)
    ensures r.Ok? ==>
              && call.again.Some? && r.value.app == call.again.value.id
              && r.value.subject == call.subject && r.value.at == call.now
  {
    var request := Request(call);
    if request.Err? then Err(request.error)
    else if request.value.subject != call.subject || call.subject == "" then Err(ConsentDenied)
    else if call.status.None? then Err(Unavailable)
    else if !U.CanAuthenticate(call.status.value) then Err(ConsentDenied)
    else
      var requested, selected := Filter(request.value.requestedScope), Filter(call.granted);
      if requested.Err? then Err(BadScopes(requested.error))
      else if selected.Err? then Err(BadScopes(selected.error))
      else if exists i :: 0 <= i < |selected.value| && selected.value[i] !in requested.value then Err(ConsentDenied)
      else if call.again.None? then Err(Unavailable)
      else
        var email := call.status.value.email;
        Ok(Grant(call.subject, call.again.value.id, request.value.requestedScope, selected.value, call.remember,
                 if "email" in selected.value && !Blank(email) then Some(email) else None, call.now))
  }

  datatype Ledger = Ledger(consents: Book, grants: seq<Grant>)

  function ConsentOf(g: Grant): Consent {
    Consent(g.subject, g.app, g.scopes, g.remember, g.at, g.at)
  }

  function Accepted(l: Ledger, call: Call): (Ledger, Option<Error>) {
    var grant := Selected(call);
    if grant.Err? then (l, Some(grant.error))
    else if PutFault in call.faults then (l, Some(Unavailable))
    else
      var key := Key(grant.value.subject, grant.value.app);
      var l1 := l.(consents := l.consents[key := ConsentOf(grant.value)]);
      if HydraFault !in call.faults then (l1.(grants := l.grants + [grant.value]), None)
      else (if DeleteFault in call.faults then l1 else l1.(consents := l1.consents - {key}), Some(Unavailable))
  }

  class ConsentService {
    const apps: R.ApplicationRepository
    const consents: ConsentRepository
    const server: AuthorizationServer

    constructor (apps: R.ApplicationRepository, consents: ConsentRepository, server: AuthorizationServer)
      ensures this.apps == apps && this.consents == consents && this.server == server
    {
      this.apps, this.consents, this.server := apps, consents, server;
    }

    method Find(client: ClientId, fails: bool) returns (found: Option<Application>)
      ensures Finds(apps.data, client, fails, found)
    {
      if fails {
        return None;
      }
      var r := apps.GetByClientID(client);
      found := if r.Ok? then Some(r.value) else None;
    }

    /** Whether every selected scope was requested. */
    method AllRequested(selected: seq<string>, requested: seq<string>) returns (ok: bool)
      ensures ok <==> forall i :: 0 <= i < |selected| ==> selected[i] in requested
    {
      for i := 0 to |selected|
        invariant forall k :: 0 <= k < i ==> selected[k] in requested
      {
        var found := Contains(requested, selected[i]);
        if !found {
          return false;
        }
      }
      ok := true;
    }

    /** `heard` is the call with what the look-ups found. */
    method Accept(call: Call) returns (r: Option<Error>, ghost heard: Call)
      modifies consents, server
      ensures heard == call.(app := heard.app, again := heard.again) && LooksUp(apps.data, heard)
      ensures (Ledger(consents.data, server.grants), r)
              == Accepted(Ledger(old(consents.data), old(server.grants)), heard)
    {
      hide Filter, Blank, Finds;
      if call.request.None? {
        return Some(Unavailable), call;
      }
      var request, status := call.request.value, call.status;
      var found := Find(request.clientId, LookupFault in call.faults);
      var again := Find(request.clientId, ReloadFault in call.faults);
      heard := call.(app := found, again := again);
      var requested := FilterScopes(request.requestedScope);
      if requested.Err? {
        return Some(BadScopes(requested.error)), heard;
      }
      if found.None? {
        return Some(Unavailable), heard;
      }
      if !found.value.status.Approved? || found.value.clientId == "" {
        return Some(AppUnavailable), heard;
      }
      if request.subject != call.subject || call.subject == "" {
        return Some(ConsentDenied), heard;
      }
      if status.None? {
        return Some(Unavailable), heard;
      }
      if !U.CanAuthenticate(status.value) {
        return Some(ConsentDenied), heard;
      }
      var selected := FilterScopes(call.granted);
      if selected.Err? {
        return Some(BadScopes(selected.error)), heard;
      }
      var licensed := AllRequested(selected.value, requested.value);
      if !licensed {
        return Some(ConsentDenied), heard;
      }
      if again.None? || PutFault in call.faults {
        return Some(Unavailable), heard;
      }
      var app := again.value;
      consents.Put(Consent(call.subject, app.id, selected.value, call.remember, call.now, call.now));
      var email := None;
      var wantsEmail := Contains(selected.value, "email");
      if wantsEmail && !Blank(status.value.email) {
        email := Some(status.value.email);
      }
      if HydraFault in call.faults {
        if DeleteFault !in call.faults {
          consents.Delete(call.subject, app.id);
        }
        return Some(Unavailable), heard;
      }
      server.AcceptConsent(Grant(call.subject, app.id, request.requestedScope, selected.value, call.remember, email,
                                 call.now));
      r := None;
    }
  }

  // ---------------------------------------------------------------- stored consents are accepted grants

  /**
   The granted scopes are filtered and were all requested; the ID token shows an e-mail only with the e-mail scope.
   */
  ghost predicate Licensed(g: Grant) {
    && Filter(g.requested).Ok? && Filter(g.scopes) == Ok(g.scopes)
    && Elements(g.scopes) <= Elements(Filter(g.requested).value)
    && (g.idTokenEmail.Some? ==> "email" in g.scopes)
  }

  ghost predicate Backs(g: Grant, c: Consent) {
    c == ConsentOf(g) && Licensed(g)
  }

  ghost predicate KeyedAndBacked(l: Ledger, k: Key)
    requires k in l.consents
  {
    && k == Key(l.consents[k].subject, l.consents[k].app)
    && exists g :: g in l.grants && Backs(g, l.consents[k])
  }

  /** Every stored consent is one the authorization server accepted. */
  ghost predicate Backed(l: Ledger) {
    forall k :: k in l.consents ==> KeyedAndBacked(l, k)
  }

  lemma SelectedLicensed(call: Call)
    requires Selected(call).Ok?
    ensures Licensed(Selected(call).value)
  {
    hide Filter, Blank;
    FilterIdempotent(call.granted);
  }

  /** Exactly when Accept gets as far as storing a consent, and the grant it then makes. */
  lemma SelectedExactly(call: Call, g: Grant)
    ensures Selected(call) == Ok(g) <==>
              && call.request.Some? && call.request.value.subject == call.subject && call.subject != ""
              && Filter(call.request.value.requestedScope).Ok? && Filter(call.granted).Ok?
              && call.app.Some? && call.app.value.status == Approved && call.app.value.clientId != ""
              && call.again.Some? && call.status.Some? && call.status.value.active && !call.status.value.suspended
              && (forall x :: x in Filter(call.granted).value ==> x in Filter(call.request.value.requestedScope).value)
              && g.subject == call.subject && g.app == call.again.value.id && g.at == call.now
              && g.requested == call.request.value.requestedScope && g.scopes == Filter(call.granted).value
              && g.remember == call.remember
              && g.idTokenEmail == if "email" in g.scopes && !Blank(call.status.value.email)
                                   then Some(call.status.value.email) else None
  {
    hide Filter, Blank;
    if Selected(call).Ok? {
      var selected, requested := Filter(call.granted).value, Filter(call.request.value.requestedScope).value;
      forall x | x in selected ensures x in requested {
        var k :| 0 <= k < |selected| && selected[k] == x;
      }
    }
  }

  /** The consent is stored first, taken back if the server refuses, and answered for only if it accepts. */
  lemma AcceptExactly(l: Ledger, call: Call)
    ensures var (l', failed) := Accepted(l, call);
            if Selected(call).Err? || PutFault in call.faults then l' == l && failed.Some?
            else
              var g := Selected(call).value;
              var key := Key(g.subject, g.app);
              var stored := l.consents[key := Consent(g.subject, g.app, g.scopes, g.remember, call.now, call.now)];
              if HydraFault !in call.faults then l' == Ledger(stored, l.grants + [g]) && failed.None?
              else
                && l' == Ledger(if DeleteFault in call.faults then stored else stored - {key}, l.grants) && failed.Some?
  {
    hide Selected;
  }

  /** The authorization server refuses, and taking the stored consent back fails as well. */
  predicate Stranded(call: Call) {
    Selected(call).Ok? && PutFault !in call.faults && HydraFault in call.faults && DeleteFault in call.faults
  }

  /** The very consent was accepted before: same user, application, scopes, choice and instant. */
  ghost predicate AlreadyGranted(l: Ledger, call: Call)
    requires Selected(call).Ok?
  {
    exists g :: g in l.grants && Backs(g, ConsentOf(Selected(call).value))
  }

  /** The call stores a consent under this key. */
  predicate WritesKey(call: Call, k: Key) {
    Selected(call).Ok? && PutFault !in call.faults && Key(Selected(call).value.subject, Selected(call).value.app) == k
  }

  lemma KeyWritten(l: Ledger, call: Call, k: Key)
    requires k in Accepted(l, call).0.consents && WritesKey(call, k)
    ensures KeyedAndBacked(Accepted(l, call).0, k) <==> !Stranded(call) || AlreadyGranted(l, call)
  {
    hide Selected, Licensed;
    SelectedLicensed(call);
    var l', g := Accepted(l, call).0, Selected(call).value;
    assert l'.consents[k] == ConsentOf(g);
    if HydraFault in call.faults {
      assert l'.grants == l.grants;
    } else {
      assert l'.grants[|l.grants|] == g;
      assert g in l'.grants && Backs(g, l'.consents[k]);
    }
  }

  lemma KeyUntouched(l: Ledger, call: Call, k: Key)
    requires k in Accepted(l, call).0.consents && !WritesKey(call, k)
    ensures k in l.consents && (KeyedAndBacked(Accepted(l, call).0, k) <==> KeyedAndBacked(l, k))
  {
    hide Selected, Licensed;
    var l' := Accepted(l, call).0;
    assert k in l.consents && l'.consents[k] == l.consents[k];
    assert forall h :: h in l.grants ==> h in l'.grants;
    if KeyedAndBacked(l', k) {
      var h :| h in l'.grants && Backs(h, l.consents[k]);
      assert Key(h.subject, h.app) == k;
      assert h in l.grants;
    }
  }

  /** What a call does to the backing of one stored consent, in any state. */
  lemma KeyStep(l: Ledger, call: Call, k: Key)
    requires k in Accepted(l, call).0.consents
    ensures var l' := Accepted(l, call).0;
            if WritesKey(call, k) then KeyedAndBacked(l', k) <==> !Stranded(call) || AlreadyGranted(l, call)
            else k in l.consents && (KeyedAndBacked(l', k) <==> KeyedAndBacked(l, k))
  {
    hide Accepted, Selected, KeyedAndBacked, AlreadyGranted;
    if WritesKey(call, k) {
      KeyWritten(l, call, k);
    } else {
      KeyUntouched(l, call, k);
    }
  }

  /** Accept breaks the correspondence exactly when it strands a consent that was not already granted. */
  lemma AcceptKeepsExactly(l: Ledger, call: Call)
    requires Backed(l)
    ensures Backed(Accepted(l, call).0) <==> !Stranded(call) || AlreadyGranted(l, call)
  {
    var l' := Accepted(l, call).0;
    if Stranded(call) {
      var g := Selected(call).value;
      assert Key(g.subject, g.app) in l'.consents;
    }
    hide Selected, Accepted, KeyedAndBacked;
    forall k | k in l'.consents
      ensures KeyedAndBacked(l', k) <==> !(WritesKey(call, k) && Stranded(call) && !AlreadyGranted(l, call))
    {
      KeyStep(l, call, k);
    }
  }

  /** Unless it strands one, Accept keeps every stored consent an accepted grant. */
  lemma AcceptKeeps(l: Ledger, call: Call)
    requires Backed(l) && !Stranded(call)
    ensures Backed(Accepted(l, call).0)
  {
    hide Backed, Stranded, Accepted;
    AcceptKeepsExactly(l, call);
  }

  /** States joined by calls of Accept, from no consents and no grants. */
  ghost predicate ValidRun(states: seq<Ledger>, calls: seq<Call>) {
    && |states| == |calls| + 1 && states[0] == Ledger(map[], [])
    && (forall i :: 0 <= i < |calls| ==> AcceptedAt(states, calls, i))
  }

  ghost predicate AcceptedAt(states: seq<Ledger>, calls: seq<Call>, i: int)
    requires 0 <= i < |calls| < |states|
  {
    states[i + 1] == Accepted(states[i], calls[i]).0
  }

  ghost predicate StrandsAt(states: seq<Ledger>, calls: seq<Call>, i: int, k: Key)
    requires 0 <= i < |calls| < |states|
  {
    WritesKey(calls[i], k) && Stranded(calls[i]) && !AlreadyGranted(states[i], calls[i])
  }

  ghost predicate Rewritten(calls: seq<Call>, i: int, n: nat, k: Key)
    requires n <= |calls|
  {
    exists j :: i < j < n && 0 <= j && WritesKey(calls[j], k)
  }

  /** The last call that stored a consent under the key stranded it, and it was not granted before. */
  ghost predicate LeftStranded(states: seq<Ledger>, calls: seq<Call>, n: nat, k: Key)
    requires n <= |calls| < |states|
  {
    exists i :: 0 <= i < n && StrandsAt(states, calls, i, k) && !Rewritten(calls, i, n, k)
  }

  lemma RewrittenStep(calls: seq<Call>, i: int, n: nat, k: Key)
    requires -1 <= i < n - 1 && n <= |calls|
    ensures Rewritten(calls, i, n, k) <==> Rewritten(calls, i, n - 1, k) || WritesKey(calls[n - 1], k)
  {
    hide WritesKey;
  }

  lemma LeftStrandedStep(states: seq<Ledger>, calls: seq<Call>, n: nat, k: Key)
    requires 0 < n <= |calls| < |states|
    ensures LeftStranded(states, calls, n, k)
            <==> if WritesKey(calls[n - 1], k) then StrandsAt(states, calls, n - 1, k)
              else LeftStranded(states, calls, n - 1, k)
  {
    hide WritesKey, Stranded, AlreadyGranted;
    forall i | 0 <= i < n - 1 ensures Rewritten(calls, i, n, k)
      <==> Rewritten(calls, i, n - 1, k) || WritesKey(calls[n - 1], k) {
      RewrittenStep(calls, i, n, k);
    }
    assert !Rewritten(calls, n - 1, n, k);
    assert StrandsAt(states, calls, n - 1, k) ==> WritesKey(calls[n - 1], k);
    hide Rewritten, StrandsAt;
  }

  /**
   In every run, a stored consent is exactly a grant the server accepted, within what was requested, if and only if
   the last call that stored it did not strand it or it had been granted before; calls for other users and
   applications do not matter.
   */
  lemma {:induction false} ConsentsBacked(states: seq<Ledger>, calls: seq<Call>, n: nat, k: Key)
    requires ValidRun(states, calls) && n < |states| && k in states[n].consents
    ensures KeyedAndBacked(states[n], k) <==> !LeftStranded(states, calls, n, k)
  {
    hide Accepted, KeyedAndBacked, WritesKey, LeftStranded, Stranded, AlreadyGranted;
    assert n > 0 && AcceptedAt(states, calls, n - 1);
    LeftStrandedStep(states, calls, n, k);
    KeyStep(states[n - 1], calls[n - 1], k);
    if !WritesKey(calls[n - 1], k) {
      ConsentsBacked(states, calls, n - 1, k);
    }
  }

  /** In every run, stranded or not, every grant the server accepted is licensed by its request. */
  lemma {:induction false} GrantsLicensed(states: seq<Ledger>, calls: seq<Call>, n: nat, g: Grant)
    requires ValidRun(states, calls) && n < |states| && g in states[n].grants
    ensures Licensed(g)
  {
    hide Selected, Licensed;
    assert n > 0 && AcceptedAt(states, calls, n - 1);
    if g in states[n - 1].grants {
      GrantsLicensed(states, calls, n - 1, g);
    } else {
      SelectedLicensed(calls[n - 1]);
    }
  }

  const OPENID := ["openid"]

  /** A call for openid of an approved application, in which the server refuses and the rollback fails. */
  function RefusedCall(app: Application, profile: U.Profile): Call {
    Call(1, "u", OPENID, false, Some(ConsentRequest("u", app.clientId, OPENID)), Some(app), Some(app), Some(profile),
         {HydraFault, DeleteFault})
  }

  /** Whatever approved application and active user it concerns, that call leaves a stored consent no one accepted. */
  lemma StrandedConsent(app: Application, profile: U.Profile)
    requires app.status.Approved? && app.clientId != "" && U.CanAuthenticate(profile)
    ensures var call := RefusedCall(app, profile);
            Stranded(call) && !Backed(Accepted(Ledger(map[], []), call).0)
  {
    hide Filter, Blank;
    FilterFixes(OPENID);
    var call := RefusedCall(app, profile);
    assert Selected(call).Ok?;
    hide Selected;
    AcceptKeepsExactly(Ledger(map[], []), call);
  }

  /**
   In a reachable state of the portal, the consent goes to the one application that answers for the request's client.
   */
  lemma GrantedToHolder(st: L.State, call: Call)
    requires I.Base(st) && LooksUp(st.store.apps, call) && Selected(call).Ok?
    ensures var a := Selected(call).value.app;
            && a in st.store.apps && st.store.apps[a].status.Approved? && st.store.apps[a].owner == call.app.value.owner
            && I.Holds(st, a) == Some(call.request.value.clientId)
            && forall b :: I.Holds(st, b) == Some(call.request.value.clientId) ==> b == a
  {
    hide Filter, Blank;
    var a :| a in st.store.apps && st.store.apps[a] == call.app.value;
    var b :| b in st.store.apps && st.store.apps[b] == call.again.value;
    I.Parts(st);
    I.Known(st, a);
    I.Known(st, b);
    hide I.Base, I.RecordsOk, I.Indexed, I.WorkFits, I.CacheOwned, I.NoOrphans;
    assert I.Names(st, a) == I.Names(st, b);
    forall c | I.Holds(st, c) == Some(call.request.value.clientId) ensures c == a {
      I.HeldOnce(st, c, a);
    }
  }

  // ---------------------------------------------------------------- claims

  datatype Claim = Sub | PreferredUsername | Name | Picture | Email | TrustLevel | Active | Silenced

  datatype Value = Text(text: string) | Number(number: int) | Flag(flag: bool)

  datatype Introspection = Introspection(active: bool, subject: Subject, clientId: ClientId, scope: string)

  /** The scope that licenses a claim (section 5.4 of OpenID Connect Core 1.0; "community" is PureConnect's own). */
  function ScopeFor(c: Claim): string {
    match c
    case Sub => "openid"
    case PreferredUsername => "profile"
    case Name => "profile"
    case Picture => "profile"
    case Email => "email"
    case TrustLevel => "community"
    case Active => "community"
    case Silenced => "community"
  }

  function ValueOf(c: Claim, subject: Subject, p: U.Profile): Value {
    match c
    case Sub => Text(subject)
    case PreferredUsername => Text(p.username)
    case Name => Text(p.name)
    case Picture => Text(p.avatarUrl)
    case Email => Text(p.email)
    case TrustLevel => Number(p.trustLevel)
    case Active => Flag(p.active)
    case Silenced => Flag(p.silenced)
  }

  /** Each claim appears exactly under its scope, with the field of the profile it stands for. */
  predicate Shows(claims: map<Claim, Value>, subject: Subject, scopes: seq<string>, user: U.Profile,
                  status: U.Profile) {
    && (Sub in claims <==> "openid" in scopes) && (Sub in claims ==> claims[Sub] == Text(subject))
    && (PreferredUsername in claims <==> "profile" in scopes)
    && (PreferredUsername in claims ==> claims[PreferredUsername] == Text(user.username))
    && (Name in claims <==> "profile" in scopes) && (Name in claims ==> claims[Name] == Text(user.name))
    && (Picture in claims <==> "profile" in scopes) && (Picture in claims ==> claims[Picture] == Text(user.avatarUrl))
    && (Email in claims <==> "email" in scopes && !Blank(status.email))
    && (Email in claims ==> claims[Email] == Text(status.email))
    && (TrustLevel in claims <==> "community" in scopes)
    && (TrustLevel in claims ==> claims[TrustLevel] == Number(status.trustLevel))
    && (Active in claims <==> "community" in scopes) && (Active in claims ==> claims[Active] == Flag(status.active))
    && (Silenced in claims <==> "community" in scopes)
       && (Silenced in claims ==> claims[Silenced] == Flag(status.silenced))
  }

  /** When a token yields claims, and which: those its scopes license, with the values the bridge has just sent. */
  lemma ClaimsExactly(ix: U.Index, token: Option<Introspection>, app: Option<Application>, refresh: U.Step,
                      lookupFails: bool)
    requires refresh.op.Refresh?
    ensures var claims := ClaimsOf(ix, token, app, refresh, lookupFails).1;
            && (claims.Some? <==>
                  && token.Some? && token.value.active && token.value.subject != "" && token.value.clientId != ""
                  && app.Some? && app.value.status == Approved && !lookupFails
                  && U.Refreshed(ix, refresh).1.Ok?
                  && refresh.op.fetched.profile.active && !refresh.op.fetched.profile.suspended
                  && Filter(Fields(token.value.scope)).Ok?)
            && (claims.Some? ==>
                  Shows(claims.value, token.value.subject, Filter(Fields(token.value.scope)).value,
                        refresh.op.fetched.profile, refresh.op.fetched.profile))
  {
    hide Filter, Fields, Blank;
    RefreshedProfile(ix, refresh);
    hide U.Refreshed;
  }

  lemma RefreshedProfile(ix: U.Index, refresh: U.Step)
    requires refresh.op.Refresh?
    ensures U.Refreshed(ix, refresh).1.Ok? ==> U.Refreshed(ix, refresh).1.value.profile == refresh.op.fetched.profile
  {
  }

  const CLAIMS := {Sub, PreferredUsername, Name, Picture, Email, TrustLevel, Active, Silenced}

  /** The claims that the scopes license, with the values of the profile. */
  function LicensedClaims(subject: Subject, scopes: seq<string>, p: U.Profile): map<Claim, Value> {
    map c | c in CLAIMS && ScopeFor(c) in scopes && (c.Email? ==> !Blank(p.email)) :: ValueOf(c, subject, p)
  }

  /**
   The index of users and the claims after a user-info request; `app` is what the look-up of the token's client found.
   */
  function ClaimsOf(ix: U.Index, token: Option<Introspection>, app: Option<Application>, refresh: U.Step,
                    lookupFails: bool)
    : (U.Index, Option<map<Claim, Value>>)
    requires refresh.op.Refresh?
  {
    if token.None? || !token.value.active || token.value.subject == "" || token.value.clientId == "" then (ix, None)
    else if app.None? || !app.value.status.Approved? then (ix, None)
    else
      var (ix', status) := U.Refreshed(ix, refresh);
      if status.Err? || !U.CanAuthenticate(status.value.profile) || lookupFails then (ix', None)
      else
        var scopes := Filter(Fields(token.value.scope));
        if scopes.Err? then (ix', None)
        else (ix', Some(LicensedClaims(token.value.subject, scopes.value, status.value.profile)))
  }

  /** Claims: refresh the user's status, then read the stored record and show what the token's scopes license. */
  method Claims(apps: R.ApplicationRepository, users: U.UserRepository, token: Option<Introspection>, refresh: U.Step,
                lookupFails: bool)
    returns (r: Option<map<Claim, Value>>, ghost app: Option<Application>)
    requires refresh.op.Refresh? && (token.Some? ==> refresh.op.subject == token.value.subject)
    modifies users
    ensures token.Some? ==> Finds(apps.data, token.value.clientId, false, app)
    ensures (users.Contents(), r) == ClaimsOf(old(users.Contents()), token, app, refresh, lookupFails)
  {
    hide Filter, Fields, Blank, LicensedClaims;
    if token.None? {
      return None, None;
    }
    var found := apps.GetByClientID(token.value.clientId);
    app := if found.Ok? then Some(found.value) else None;
    if !token.value.active || token.value.subject == "" || token.value.clientId == "" {
      return None, app;
    }
    if found.Err? || !found.value.status.Approved? {
      return None, app;
    }
    var status := U.CurrentStatus(users, refresh);
    if status.Err? || !U.CanAuthenticate(status.value.profile) {
      return None, app;
    }
    var user := users.GetBySubject(token.value.subject);
    if lookupFails {
      return None, app;
    }
    var scopes := FilterScopes(Fields(token.value.scope));
    if scopes.Err? {
      return None, app;
    }
    OpenidKept(Fields(token.value.scope));
    assert user.value.profile == status.value.profile;
    var claims := ClaimsFor(token.value.subject, scopes.value, user.value.profile, status.value.profile);
    AreLicensed(claims, token.value.subject, scopes.value, status.value.profile);
    r := Some(claims);
  }

  lemma AreLicensed(claims: map<Claim, Value>, subject: Subject, scopes: seq<string>, p: U.Profile)
    requires forall c :: c in claims <==> ScopeFor(c) in scopes && (c.Email? ==> !Blank(p.email))
    requires forall c :: c in claims ==> claims[c] == ValueOf(c, subject, p)
    ensures claims == LicensedClaims(subject, scopes, p)
  {
    hide ScopeFor, ValueOf, Blank;
    forall c: Claim ensures c in CLAIMS {
      EveryClaim(c);
    }
  }

  lemma EveryClaim(c: Claim)
    ensures c in CLAIMS
  {
    match c
    case Sub =>
    case PreferredUsername =>
    case Name =>
    case Picture =>
    case Email =>
    case TrustLevel =>
    case Active =>
    case Silenced =>
  }

  /** The claims the scopes license, from the stored record and the current status. */
  method ClaimsFor(subject: Subject, scopes: seq<string>, user: U.Profile, status: U.Profile)
    returns (claims: map<Claim, Value>)
    requires "openid" in scopes
    ensures forall c :: c in claims <==> ScopeFor(c) in scopes && (c.Email? ==> !Blank(status.email))
    ensures forall c :: c in claims ==>
                          claims[c] == ValueOf(c, subject, if ScopeFor(c) == "profile" then user else status)
    ensures Shows(claims, subject, scopes, user, status)
  {
    hide Blank, Shows;
    claims := map[Sub := Text(subject)];
    var profile := Contains(scopes, "profile");
    if profile {
      claims := claims[PreferredUsername := Text(user.username)];
      claims := claims[Name := Text(user.name)];
      claims := claims[Picture := Text(user.avatarUrl)];
    }
    var email := Contains(scopes, "email");
    if email && !Blank(status.email) {
      claims := claims[Email := Text(status.email)];
    }
    var community := Contains(scopes, "community");
    if community {
      claims := claims[TrustLevel := Number(status.trustLevel)];
      claims := claims[Active := Flag(status.active)];
      claims := claims[Silenced := Flag(status.silenced)];
    }
    AsScoped(claims, subject, scopes, user, status);
  }

  lemma AsScoped(claims: map<Claim, Value>, subject: Subject, scopes: seq<string>, user: U.Profile, status: U.Profile)
    requires forall c :: c in claims <==> ScopeFor(c) in scopes && (c.Email? ==> !Blank(status.email))
    requires forall c :: c in claims ==>
                           claims[c] == ValueOf(c, subject, if ScopeFor(c) == "profile" then user else status)
    ensures Shows(claims, subject, scopes, user, status)
  {
    hide Blank;
  }

  /**
   End to end: a token whose scope text lists a licensed grant, in whatever order and with whatever
   repetition, carries exactly the granted scopes, all of which were requested.
   */
  lemma ClaimsWithinRequest(g: Grant, words: seq<string>, scope: string)
    requires Licensed(g) && Elements(words) == Elements(g.scopes)
    ensures Filter(Fields(Join(words))).Ok?
    ensures scope in Filter(Fields(Join(words))).value <==> scope in g.scopes
    ensures scope in g.scopes ==> Asked(g.requested, scope)
  {
    hide Filter, Fields, Join;
    TextKeepsScopes(g.scopes, words);
    FilterMeaning(g.requested);
    hide Asked;
    var kept := Filter(Fields(Join(words))).value;
    assert scope in Elements(kept) <==> scope in Elements(g.scopes);
    assert scope in Elements(g.scopes) ==> scope in Elements(Filter(g.requested).value);
  }

  /** The scope was granted, out of a request that asked for it. */
  ghost predicate GrantedAndAsked(g: Grant, scope: string) {
    scope in g.scopes && Asked(g.requested, scope)
  }

  /**
   Over every run of consents, whatever was refused, stranded or deleted since: a token whose scope text lists the
   scopes of a grant yields profile, e-mail and community claims only if profile, email and community were each
   granted and asked for.
   */
  lemma ClaimsLicensedInRun(states: seq<Ledger>, calls: seq<Call>, n: nat, g: Grant, words: seq<string>,
                            ix: U.Index, token: Introspection, app: Option<Application>, refresh: U.Step)
    requires ValidRun(states, calls) && n < |states| && g in states[n].grants
    requires Elements(words) == Elements(g.scopes) && refresh.op.Refresh? && token.scope == Join(words)
    ensures var claims := ClaimsOf(ix, Some(token), app, refresh, false).1;
            claims.Some? ==>
              && (PreferredUsername in claims.value || Name in claims.value || Picture in claims.value ==>
                    GrantedAndAsked(g, "profile"))
              && (Email in claims.value ==> GrantedAndAsked(g, "email"))
              && (TrustLevel in claims.value || Active in claims.value || Silenced in claims.value ==>
                    GrantedAndAsked(g, "community"))
              && Sub in claims.value && GrantedAndAsked(g, "openid")
  {
    hide ValidRun, Licensed, Filter, Fields, Join, Asked, ClaimsOf, Elements, Blank, U.Refreshed;
    GrantsLicensed(states, calls, n, g);
    ClaimsExactly(ix, Some(token), app, refresh, false);
    ClaimsWithinRequest(g, words, "openid");
    ClaimsWithinRequest(g, words, "profile");
    ClaimsWithinRequest(g, words, "email");
    ClaimsWithinRequest(g, words, "community");
    OpenidKept(Fields(token.scope));
  }
}
