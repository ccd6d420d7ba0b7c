/** OAuth scopes: filtering, comparison and their text form (internal/oauth/login.go). */
module Scopes {
  import opened Common

  const ALLOWED := {"openid", "profile", "email", "community", "offline_access"}

  datatype ScopeError = NotAllowed(scope: string) | OpenidRequired

  /** The scopes kept so far, reading from the left, or the first one that is not allowed. */
  function Collect(scopes: seq<string>): Reply<seq<string>, ScopeError> {
    if scopes == [] then Ok([])
    else
      var before := Collect(scopes[..|scopes| - 1]);
      var scope := Trim(scopes[|scopes| - 1]);
      if before.Err? || scope == "" then before
      else if scope !in ALLOWED then Err(NotAllowed(scope))
      else if scope in before.value then before
      else Ok(before.value + [scope])
  }

  function Filter(scopes: seq<string>): Reply<seq<string>, ScopeError> {
    var r := Collect(scopes);
    if r.Ok? && "openid" !in r.value then Err(OpenidRequired) else r
  }

  method FilterScopes(scopes: seq<string>) returns (r: Reply<seq<string>, ScopeError>)
    ensures r == Filter(scopes)
  {
    hide Trim;
    var result: seq<string>, seen: set<string> := [], {};
    for i := 0 to |scopes|
      invariant Collect(scopes[..i]) == Ok(result)
      invariant forall s :: s in seen <==> s in result
    {
      var scope := Trim(scopes[i]);
      assert scopes[..i + 1][..i] == scopes[..i];
      if scope == "" {
        continue;
      }
      if scope !in ALLOWED {
        CollectStops(scopes, i + 1);
        return Err(NotAllowed(scope));
      }
      if scope in seen {
        continue;
      }
      seen := seen + {scope};
      result := result + [scope];
    }
    assert scopes[..|scopes|] == scopes;
    if |result| == 0 || "openid" !in result {
      return Err(OpenidRequired);
    }
    r := Ok(result);
  }

  lemma {:induction false} CollectStops(scopes: seq<string>, i: nat)
    requires i <= |scopes| && Collect(scopes[..i]).Err?
    ensures Collect(scopes) == Collect(scopes[..i])
  {
    if i == |scopes| {
      assert scopes[..i] == scopes;
    } else {
      var init := scopes[..|scopes| - 1];
      assert init[..i] == scopes[..i];
      CollectStops(init, i);
    }
  }

  // ---------------------------------------------------------------- what filtering means

  ghost predicate Distinct(s: seq<string>) {
    forall i, j :: 0 <= i < j < |s| ==> s[i] != s[j]
  }

  /** Position i is the first to ask for this scope. */
  ghost predicate FirstAsked(scopes: seq<string>, scope: string, i: int) {
    0 <= i < |scopes| && Trim(scopes[i]) == scope && forall j :: 0 <= j < i ==> Trim(scopes[j]) != scope
  }

  /** The kept scopes are distinct, in the order in which each is first asked for. */
  ghost predicate FirstOrder(scopes: seq<string>, r: seq<string>) {
    forall a, b, i, j :: 0 <= a < b < |r| && FirstAsked(scopes, r[a], i) && FirstAsked(scopes, r[b], j) ==> i < j
  }

  ghost predicate Asked(scopes: seq<string>, scope: string) {
    scope != "" && exists i :: FirstAsked(scopes, scope, i)
  }

  lemma {:induction false} FirstExists(scopes: seq<string>, k: nat) returns (i: nat)
    requires k < |scopes|
    ensures FirstAsked(scopes, Trim(scopes[k]), i) && i <= k
  {
    hide Trim;
    if j :| 0 <= j < k && Trim(scopes[j]) == Trim(scopes[k]) {
      i := FirstExists(scopes, j);
    } else {
      i := k;
    }
  }

  lemma FirstGrows(init: seq<string>, last: string, scope: string, i: int)
    ensures 0 <= i < |init| ==> (FirstAsked(init + [last], scope, i) <==> FirstAsked(init, scope, i))
    ensures FirstAsked(init + [last], scope, |init|) <==>
              Trim(last) == scope && forall j :: 0 <= j < |init| ==> Trim(init[j]) != scope
  {
    hide Trim;
    var s := init + [last];
    assert s[|init|] == last && forall j :: 0 <= j < |init| ==> s[j] == init[j];
  }

  lemma AskedGrows(init: seq<string>, last: string, scope: string)
    ensures Asked(init + [last], scope) <==> Asked(init, scope) || (scope != "" && scope == Trim(last))
  {
    hide Trim;
    var s := init + [last];
    if Asked(s, scope) {
      var i :| FirstAsked(s, scope, i);
      FirstGrows(init, last, scope, i);
    }
    if scope == Trim(last) {
      assert s[|init|] == last;
      var i := FirstExists(s, |init|);
    }
    if Asked(init, scope) {
      var i :| FirstAsked(init, scope, i);
      FirstGrows(init, last, scope, i);
    }
  }

  lemma OrderGrows(init: seq<string>, last: string, r: seq<string>)
    requires FirstOrder(init, r) && (forall x :: x in r ==> Asked(init, x))
    ensures FirstOrder(init + [last], r)
  {
    hide Trim;
    var s := init + [last];
    forall a, b, i, j | 0 <= a < b < |r| && FirstAsked(s, r[a], i) && FirstAsked(s, r[b], j) ensures i < j {
      assert r[a] in r && r[b] in r;
      var k :| FirstAsked(init, r[a], k);
      var l :| FirstAsked(init, r[b], l);
      FirstGrows(init, last, r[a], k);
      FirstGrows(init, last, r[b], l);
      FirstUnique(s, r[a], i, k);
      FirstUnique(s, r[b], j, l);
    }
  }

  lemma FirstUnique(scopes: seq<string>, scope: string, i: int, j: int)
    requires FirstAsked(scopes, scope, i) && FirstAsked(scopes, scope, j)
    ensures i == j
  {
    hide Trim;
  }

  lemma OrderAppends(init: seq<string>, last: string, r: seq<string>)
    requires FirstOrder(init, r) && (forall x :: x in r ==> Asked(init, x)) && !Asked(init, Trim(last))
             && Trim(last) != ""
    ensures FirstOrder(init + [last], r + [Trim(last)])
  {
    hide Trim;
    OrderGrows(init, last, r);
    var s, r' := init + [last], r + [Trim(last)];
    forall a, b, i, j | 0 <= a < b < |r'| && FirstAsked(s, r'[a], i) && FirstAsked(s, r'[b], j) ensures i < j {
      if b == |r| {
        assert r'[a] == r[a] && r[a] in r;
        var k :| FirstAsked(init, r[a], k);
        FirstGrows(init, last, r[a], k);
        FirstUnique(s, r[a], i, k);
        FirstGrows(init, last, Trim(last), j);
      } else {
        assert r'[a] == r[a] && r'[b] == r[b];
      }
    }
  }

  /** Filtering succeeds exactly when every scope asked for is allowed, and keeps each once, in first-asked order. */
  lemma {:induction false} CollectMeaning(scopes: seq<string>)
    ensures Collect(scopes).Ok? <==> forall x :: Asked(scopes, x) ==> x in ALLOWED
    ensures Collect(scopes).Ok? ==>
              && Distinct(Collect(scopes).value) && FirstOrder(scopes, Collect(scopes).value)
              && forall x :: x in Collect(scopes).value <==> Asked(scopes, x)
    ensures Collect(scopes).Err? ==>
              Collect(scopes).error.NotAllowed? && Collect(scopes).error.scope !in ALLOWED
                && Asked(scopes, Collect(scopes).error.scope)
  {
    if scopes != [] {
      hide Trim, FirstOrder, Asked;
      var init, last := scopes[..|scopes| - 1], scopes[|scopes| - 1];
      assert init + [last] == scopes;
      CollectMeaning(init);
      forall x: string ensures Asked(scopes, x) <==> Asked(init, x) || (x != "" && x == Trim(last)) {
        AskedGrows(init, last, x);
      }
      var r := Collect(init);
      if r.Ok? {
        OrderGrows(init, last, r.value);
        if Trim(last) != "" && Trim(last) !in r.value {
          OrderAppends(init, last, r.value);
        }
      }
    }
  }

  /** The whole contract of filtering: when it succeeds and what it returns. */
  lemma FilterMeaning(scopes: seq<string>)
    ensures Filter(scopes).Ok? <==>
              && Asked(scopes, "openid")
              && forall x :: Asked(scopes, x) ==> x in {"openid", "profile", "email", "community", "offline_access"}
    ensures Filter(scopes).Ok? ==>
              && Distinct(Filter(scopes).value) && FirstOrder(scopes, Filter(scopes).value)
              && forall x :: x in Filter(scopes).value <==> Asked(scopes, x)
  {
    hide Trim, FirstOrder, Asked, Collect;
    CollectMeaning(scopes);
  }

  lemma OpenidKept(scopes: seq<string>)
    ensures Filter(scopes).Ok? ==> "openid" in Filter(scopes).value
  {
  }

  ghost predicate Trimmed(s: seq<string>) {
    forall i :: 0 <= i < |s| ==> s[i] != "" && Trim(s[i]) == s[i]
  }

  lemma {:induction false} CollectFixes(s: seq<string>)
    requires Distinct(s) && Trimmed(s) && forall x :: x in s ==> x in ALLOWED
    ensures Collect(s) == Ok(s)
  {
    hide Trim;
    if s != [] {
      var init, last := s[..|s| - 1], s[|s| - 1];
      CollectFixes(init);
      assert init + [last] == s;
    }
  }

  lemma FilteredTrimmed(scopes: seq<string>)
    requires Filter(scopes).Ok?
    ensures Trimmed(Filter(scopes).value)
  {
    hide Trim, Filter, FirstOrder, Distinct;
    FilterMeaning(scopes);
    var r := Filter(scopes).value;
    forall i | 0 <= i < |r| ensures r[i] != "" && Trim(r[i]) == r[i] {
      assert r[i] in r;
      var k :| FirstAsked(scopes, r[i], k);
      TrimIdempotent(scopes[k]);
    }
  }

  /** Filtering a second time changes nothing. */
  lemma FilterIdempotent(scopes: seq<string>)
    requires Filter(scopes).Ok?
    ensures Filter(Filter(scopes).value) == Filter(scopes)
  {
    hide Trim, Collect, FirstOrder, Distinct, Asked, Trimmed;
    FilteredTrimmed(scopes);
    FilterMeaning(scopes);
    CollectFixes(Filter(scopes).value);
  }

  // ---------------------------------------------------------------- comparing scope lists

  function SameStrings(left: seq<string>, right: seq<string>): bool {
    var filtered := Filter(right);
    filtered.Ok? && |left| == |filtered.value| && forall i :: 0 <= i < |left| ==> left[i] in filtered.value
  }

  method Contains(values: seq<string>, wanted: string) returns (found: bool)
    ensures found <==> wanted in values
  {
    for i := 0 to |values|
      invariant wanted !in values[..i]
    {
      if values[i] == wanted {
        return true;
      }
    }
    assert values[..|values|] == values;
    found := false;
  }

  method SameScopes(left: seq<string>, right: seq<string>) returns (same: bool)
    ensures same == SameStrings(left, right)
  {
    hide Filter;
    var filtered := FilterScopes(right);
    if filtered.Err? || |left| != |filtered.value| {
      return false;
    }
    for i := 0 to |left|
      invariant forall k :: 0 <= k < i ==> left[k] in filtered.value
    {
      var found := Contains(filtered.value, left[i]);
      if !found {
        return false;
      }
    }
    same := true;
  }

  function Elements(s: seq<string>): set<string> {
    set x | x in s
  }

  lemma {:induction false} DistinctCard(s: seq<string>)
    requires Distinct(s)
    ensures |Elements(s)| == |s|
  {
    if s != [] {
      var init, last := s[..|s| - 1], s[|s| - 1];
      DistinctCard(init);
      assert Elements(s) == Elements(init) + {last};
      assert last !in init;
    } else {
      assert Elements(s) == {};
    }
  }

  lemma FullSubset<T>(a: set<T>, b: set<T>)
    requires a <= b && |a| == |b|
    ensures a == b
  {
    assert |b - a| == |b| - |a|;
  }

  /** On a filtered left side the comparison decides equality as sets: a duplicate-free list has no room for a miss. */
  lemma SameDecidesSets(asked: seq<string>, right: seq<string>)
    requires Filter(asked).Ok?
    ensures SameStrings(Filter(asked).value, right)
            <==> Filter(right).Ok? && Elements(Filter(asked).value) == Elements(Filter(right).value)
  {
    hide Filter;
    FilterMeaning(asked);
    FilterMeaning(right);
    hide Asked, FirstOrder;
    var left := Filter(asked).value;
    DistinctCard(left);
    if Filter(right).Ok? {
      var filtered := Filter(right).value;
      DistinctCard(filtered);
      if SameStrings(left, right) {
        FullSubset(Elements(left), Elements(filtered));
      } else if Elements(left) == Elements(filtered) {
        forall i | 0 <= i < |left| ensures left[i] in filtered {
          assert left[i] in Elements(left);
        }
      }
    }
  }

  // ---------------------------------------------------------------- the text form

  predicate Plain(w: string) {
    w != "" && forall i :: 0 <= i < |w| ==> !IsSpace(w[i])
  }

  /** The leading characters up to the first white space. */
  function Word(s: string): (w: string)
    ensures |w| <= |s| && w == s[..|w|] && (|w| < |s| ==> IsSpace(s[|w|]))
    ensures forall i :: 0 <= i < |w| ==> !IsSpace(w[i])
  {
    if s == "" || IsSpace(s[0]) then "" else [s[0]] + Word(s[1..])
  }

  /** strings.Fields. */
  function Fields(s: string): (r: seq<string>)
    ensures forall w :: w in r ==> Plain(w)
    decreases |s|
  {
    var t := TrimLeft(s);
    if t == "" then [] else [Word(t)] + Fields(t[|Word(t)|..])
  }

  /** The words are what stands between white space: nothing is lost, and no word is cut or joined with another. */
  ghost predicate SplitsInto(s: string, words: seq<string>)
    decreases |words|
  {
    if words == [] then AllSpace(s)
    else
      exists gap: string, rest: string ::
        && s == gap + (words[0] + rest) && AllSpace(gap) && Plain(words[0]) && (rest == "" || IsSpace(rest[0]))
        && SplitsInto(rest, words[1..])
  }

  /** One word split off. */
  lemma SplitsFirst(s: string, gap: string, w: string, rest: string, words: seq<string>)
    requires s == gap + (w + rest) && AllSpace(gap) && Plain(w) && (rest == "" || IsSpace(rest[0]))
    requires SplitsInto(rest, words)
    ensures SplitsInto(s, [w] + words)
  {
    hide Plain, IsSpace, AllSpace;
    var all := [w] + words;
    assert all[0] == w && all[1..] == words;
  }

  lemma TrimGap(s: string)
    ensures var t := TrimLeft(s); s == s[..|s| - |t|] + t && AllSpace(s[..|s| - |t|])
  {
    hide IsSpace;
    var t := TrimLeft(s);
    hide TrimLeft;
    assert s == s[..|s| - |t|] + t;
  }

  lemma WordRest(t: string)
    requires t != "" && !IsSpace(t[0])
    ensures var w := Word(t); t == w + t[|w|..] && Plain(w) && (t[|w|..] == "" || IsSpace(t[|w|..][0]))
  {
    hide IsSpace;
    var w := Word(t);
    assert w != "";
    hide Word;
    assert t == w + t[|w|..];
  }

  lemma {:induction false} FieldsSplit(s: string)
    ensures SplitsInto(s, Fields(s))
    decreases |s|
  {
    var t := TrimLeft(s);
    var gap, w := s[..|s| - |t|], Word(t);
    TrimGap(s);
    if t == "" {
      assert Fields(s) == [];
      hide Fields, TrimLeft, Word, IsSpace, AllSpace;
      assert s == gap;
    } else {
      var rest := t[|w|..];
      assert Fields(s) == [w] + Fields(rest);
      hide Fields, Plain, IsSpace, AllSpace, TrimLeft, Word, SplitsInto;
      WordRest(t);
      FieldsSplit(rest);
      SplitsFirst(s, gap, w, rest, Fields(rest));
    }
  }

  function Join(words: seq<string>): string {
    if words == [] then "" else if |words| == 1 then words[0] else words[0] + (" " + Join(words[1..]))
  }

  lemma {:induction false} WordEnds(s: string, k: nat)
    requires k <= |s| && (forall i :: 0 <= i < k ==> !IsSpace(s[i])) && (k < |s| ==> IsSpace(s[k]))
    ensures |Word(s)| == k
  {
    hide IsSpace;
    if k > 0 {
      WordEnds(s[1..], k - 1);
    }
  }

  lemma FieldsCons(w: string, rest: string)
    requires Plain(w) && (rest == "" || IsSpace(rest[0]))
    ensures Fields(w + rest) == [w] + Fields(rest)
  {
    hide IsSpace;
    var s := w + rest;
    assert forall i :: 0 <= i < |w| ==> s[i] == w[i];
    WordEnds(s, |w|);
    assert w == s[..|w|] && rest == s[|w|..];
  }

  /** Splitting what was joined gives the words back. */
  lemma {:induction false} FieldsJoin(words: seq<string>)
    requires forall w :: w in words ==> Plain(w)
    ensures Fields(Join(words)) == words
  {
    hide Fields, Plain;
    if words == [] {
      NoFields();
    } else if |words| == 1 {
      NoFields();
      FieldsCons(words[0], "");
      assert words[0] + "" == words[0];
    } else {
      FieldsJoin(words[1..]);
      SpaceFirst(Join(words[1..]));
      FieldsCons(words[0], " " + Join(words[1..]));
      assert Join(words) == words[0] + (" " + Join(words[1..]));
    }
  }

  lemma NoFields()
    ensures Fields("") == []
  {
  }

  lemma SpaceFirst(s: string)
    ensures IsSpace((" " + s)[0]) && Fields(" " + s) == Fields(s)
  {
    assert (" " + s)[1..] == s;
    assert TrimLeft(" " + s) == TrimLeft(s);
  }

  lemma AllowedPlain(scope: string)
    requires scope in ALLOWED
    ensures Plain(scope)
  {
  }

  lemma PlainTrimmed(w: string)
    requires Plain(w)
    ensures Trim(w) == w
  {
    assert !IsSpace(w[0]) && !IsSpace(w[|w| - 1]);
    hide IsSpace;
  }

  /** Distinct allowed scopes with openid among them pass unchanged. */
  lemma FilterFixes(s: seq<string>)
    requires Distinct(s) && "openid" in s && forall x :: x in s ==> x in ALLOWED
    ensures Filter(s) == Ok(s)
  {
    hide Trim, Collect, Plain;
    forall i | 0 <= i < |s| ensures s[i] != "" && Trim(s[i]) == s[i] {
      assert s[i] in s;
      AllowedPlain(s[i]);
      PlainTrimmed(s[i]);
      PlainNotEmpty(s[i]);
    }
    CollectFixes(s);
  }

  lemma PlainNotEmpty(w: string)
    ensures Plain(w) ==> w != ""
  {
  }

  /**
   However a list of filtered scopes is reordered, repeated and written out, reading it back keeps the same scopes.
   */
  lemma TextKeepsScopes(asked: seq<string>, words: seq<string>)
    requires Filter(asked).Ok? && Elements(words) == Elements(Filter(asked).value)
    ensures Filter(Fields(Join(words))).Ok? && Elements(Filter(Fields(Join(words))).value)
            == Elements(Filter(asked).value)
  {
    hide Trim, Filter, Fields, Plain, FirstOrder, Distinct;
    var kept := Filter(asked).value;
    FilterMeaning(asked);
    FilteredTrimmed(asked);
    forall w | w in words ensures w in kept && w in ALLOWED && Plain(w) && Trim(w) == w != "" {
      assert w in Elements(words);
      AllowedPlain(w);
    }
    FieldsJoin(words);
    hide Asked, Join;
    forall x ensures Asked(words, x) <==> x in kept {
      AskedPlainly(words, x);
      assert x in Elements(words) <==> x in Elements(kept);
    }
    FilterMeaning(words);
  }

  lemma AskedPlainly(words: seq<string>, x: string)
    requires forall w :: w in words ==> Trim(w) == w != ""
    ensures Asked(words, x) <==> x in words
  {
    hide Trim;
    if x in words {
      var k :| 0 <= k < |words| && words[k] == x;
      var i := FirstExists(words, k);
    }
  }

  // ---------------------------------------------------------------- login requests

  /** The query of the authorization URL. */
  datatype Query = Query(
    clientId: string, redirectUri: string, responseType: string, scope: string, state: string,
    codeChallenge: string, codeChallengeMethod: string, nonce: string)

  /** `query` is None unless the request URL is an https address of the authorization endpoint. */
  datatype LoginRequest = LoginRequest(
    challenge: string, clientId: string, redirectUris: seq<string>, requestUrl: string, query: Option<Query>,
    requestedScope: seq<string>)

  function ValidLogin(r: LoginRequest, requirePKCENonce: bool): bool {
    if r.challenge == "" || r.clientId == "" || r.requestUrl == "" || r.query.None? then false
    else
      var q := r.query.value;
      if q.clientId != r.clientId || q.redirectUri == "" || q.redirectUri !in r.redirectUris
        || q.responseType != "code" then false
      else
        var scope := Filter(Fields(q.scope));
        if scope.Err? || !SameStrings(scope.value, r.requestedScope) || "openid" !in scope.value || q.state == ""
          then false
        else !(requirePKCENonce && (q.codeChallenge == "" || q.codeChallengeMethod != "S256" || q.nonce == ""))
  }

  /** A login request is accepted exactly when its URL and the server agree on client, address and set of scopes. */
  lemma ValidLoginMeaning(r: LoginRequest, requirePKCENonce: bool)
    ensures ValidLogin(r, requirePKCENonce) <==>
              && r.challenge != "" && r.clientId != "" && r.requestUrl != "" && r.query.Some?
              && var q := r.query.value;
                 && q.clientId == r.clientId && q.redirectUri != "" && q.redirectUri in r.redirectUris
                 && q.responseType == "code" && q.state != ""
                 && Filter(Fields(q.scope)).Ok? && Filter(r.requestedScope).Ok?
                 && Elements(Filter(Fields(q.scope)).value) == Elements(Filter(r.requestedScope).value)
                 && (requirePKCENonce ==> q.codeChallenge != "" && q.codeChallengeMethod == "S256" && q.nonce != "")
  {
    hide Fields, SameStrings;
    if r.query.Some? && Filter(Fields(r.query.value.scope)).Ok? {
      SameDecidesSets(Fields(r.query.value.scope), r.requestedScope);
    }
  }
}
