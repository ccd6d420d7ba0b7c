/** The one-shot nonces of the browser sign-on round trip (internal/identity/sso.go). */
module Sso {
  import opened Common

  const DEFAULT_WINDOW: int := 10 * MINUTE

  /**
   Library functions: the return-path and callback-address checks, the payload's signature and decoding, integer
   parsing, trimming.
   */
  datatype Codec = Codec(
    isRelative: string -> bool, signed: (string, string) -> bool, decode: string -> Option<Payload>,
    sameCallback: string -> bool, parseInt: string -> Option<int>, trim: string -> string)

  datatype Payload = Payload(nonce: string, returnUrl: string, externalId: string)

  /** The query of the callback request. */
  datatype Callback = Callback(sso: string, sig: string, state: string)

  datatype Pending = Pending(returnTo: string, challenge: string, expiresAt: Time)

  datatype Identity = Identity(discourseId: int, challenge: string, returnTo: string)

  datatype Answer =
    | Redirected(nonce: string) | BeginRefused
    | SignedOn(who: Identity) | InvalidSSO | StateReplay | StateExpired

  type Table = map<string, Pending>

  /** cleanupLocked: what is still pending at an instant. */
  function Unexpired(pending: Table, now: Time): Table {
    map n | n in pending && pending[n].expiresAt > now :: pending[n]
  }

  datatype Claim = Claim(nonce: string, discourseId: int)

  /** Everything Complete checks before it looks at the table. */
  function CheckCallback(codec: Codec, cb: Callback): (r: Option<Claim>)
    ensures r.Some? ==> r.value.nonce == codec.trim(cb.state) != "" && r.value.discourseId > 0
    ensures r.Some? ==> codec.signed(codec.trim(cb.sso), codec.trim(cb.sig))
  {
    var raw, sig, state := codec.trim(cb.sso), codec.trim(cb.sig), codec.trim(cb.state);
    if raw == "" || sig == "" || state == "" || !codec.signed(raw, sig) then None
    else
      var p := codec.decode(raw);
      if p.None? then None
      else
        var nonce, returnUrl := codec.trim(p.value.nonce), codec.trim(p.value.returnUrl);
        if nonce == "" || nonce != state || !codec.sameCallback(returnUrl) then None
        else
          var id := codec.parseInt(codec.trim(p.value.externalId));
          if id.None? || id.value <= 0 then None else Some(Claim(nonce, id.value))
  }

  /**
   The callback is signed by the forum, carries this nonce in both state and payload, was meant for this portal, and
   names this user.
   */
  predicate ValidCallback(codec: Codec, cb: Callback, nonce: string, user: int) {
    var raw := codec.trim(cb.sso);
    && raw != "" && codec.trim(cb.sig) != "" && nonce != "" && codec.trim(cb.state) == nonce
    && codec.signed(raw, codec.trim(cb.sig)) && codec.decode(raw).Some?
    && codec.trim(codec.decode(raw).value.nonce) == nonce
    && codec.sameCallback(codec.trim(codec.decode(raw).value.returnUrl))
    && codec.parseInt(codec.trim(codec.decode(raw).value.externalId)) == Some(user) && user > 0
  }

  lemma CheckCallbackExactly(codec: Codec, cb: Callback, nonce: string, user: int)
    ensures CheckCallback(codec, cb) == Some(Claim(nonce, user)) <==> ValidCallback(codec, cb, nonce, user)
  {
  }

  /** The calls; `drawn` is the random nonce, None when drawing it fails. */
  datatype Op = Begin(returnTo: string, challenge: string, drawn: Option<string>) | Complete(cb: Callback)

  datatype Call = Call(now: Time, op: Op)

  function Step(codec: Codec, window: int, pending: Table, call: Call): (Table, Answer) {
    match call.op
    case Begin(returnTo, challenge, drawn) =>
      if !codec.isRelative(returnTo) || drawn.None? then (pending, BeginRefused)
      else
        (Unexpired(pending, call.now)[drawn.value := Pending(returnTo, codec.trim(challenge), call.now + window)],
         Redirected(drawn.value))
    case Complete(cb) =>
      var claim := CheckCallback(codec, cb);
      if claim.None? then (pending, InvalidSSO)
      else
        var kept := Unexpired(pending, call.now);
        if claim.value.nonce !in kept then (kept, StateReplay)
        else
          var p := kept[claim.value.nonce];
          (kept - {claim.value.nonce},
           if p.expiresAt > call.now then SignedOn(Identity(claim.value.discourseId, p.challenge, p.returnTo))
             else StateExpired)
  }

  class SSOProvider {
    const codec: Codec
    const window: int
    var pending: Table

    constructor (codec: Codec, window: int)
      ensures this.codec == codec && pending == map[]
      ensures this.window == if window <= 0 then 600_000_000_000 else window
    {
      this.codec := codec;
      this.window := if window <= 0 then DEFAULT_WINDOW else window;
      pending := map[];
    }

    method Cleanup(now: Time)
      modifies this
      ensures pending == Unexpired(old(pending), now)
    {
      var left := pending.Keys;
      while left != {}
        invariant left <= pending.Keys <= old(pending).Keys
        invariant forall n :: n in pending ==> pending[n] == old(pending)[n]
        invariant forall n :: n in old(pending) && n !in left ==> (n in pending <==> old(pending)[n].expiresAt > now)
        decreases left
      {
        var nonce :| nonce in left;
        left := left - {nonce};
        if !(pending[nonce].expiresAt > now) {
          pending := pending - {nonce};
        }
      }
    }

    method Begin(returnTo: string, challenge: string, drawn: Option<string>, now: Time) returns (r: Answer)
      modifies this
      ensures (pending, r) == Step(codec, window, old(pending), Call(now, Op.Begin(returnTo, challenge, drawn)))
    {
      if !codec.isRelative(returnTo) || drawn.None? {
        return BeginRefused;
      }
      Cleanup(now);
      pending := pending[drawn.value := Pending(returnTo, codec.trim(challenge), now + window)];
      r := Redirected(drawn.value);
    }

    method Complete(cb: Callback, now: Time) returns (r: Answer)
      modifies this
      ensures (pending, r) == Step(codec, window, old(pending), Call(now, Op.Complete(cb)))
      ensures r.InvalidSSO? ==> pending == old(pending)
    {
      var claim := CheckCallback(codec, cb);
      if claim.None? {
        return InvalidSSO;
      }
      Cleanup(now);
      var nonce := claim.value.nonce;
      if nonce !in pending {
        return StateReplay;
      }
      var p := pending[nonce];
      pending := pending - {nonce};
      r := if p.expiresAt > now then SignedOn(Identity(claim.value.discourseId, p.challenge, p.returnTo))
        else StateExpired;
    }
  }

  // ---------------------------------------------------------------- histories

  /** The call issued this nonce. */
  predicate Issues(codec: Codec, call: Call, nonce: string) {
    call.op.Begin? && codec.isRelative(call.op.returnTo) && call.op.drawn == Some(nonce)
  }

  /** The call presents this nonce with a valid signature and payload. */
  predicate Presents(codec: Codec, call: Call, nonce: string) {
    && call.op.Complete? && CheckCallback(codec, call.op.cb).Some?
    && CheckCallback(codec, call.op.cb).value.nonce == nonce
  }

  /** The clock does not run backwards and drawn nonces are new. */
  ghost predicate History(codec: Codec, h: seq<Call>) {
    && (forall i, j :: 0 <= i < j < |h| ==> h[i].now <= h[j].now)
    && (forall i, j, n :: 0 <= i < j < |h| && Issues(codec, h[i], n) ==> !Issues(codec, h[j], n))
  }

  function TableAfter(codec: Codec, window: int, h: seq<Call>): Table {
    if h == [] then map[] else Step(codec, window, TableAfter(codec, window, h[..|h| - 1]), h[|h| - 1]).0
  }

  /** Position i issued the nonce and no later call has presented it. */
  ghost predicate Open(codec: Codec, h: seq<Call>, i: int, nonce: string) {
    0 <= i < |h| && Issues(codec, h[i], nonce) && forall k :: i < k < |h| ==> !Presents(codec, h[k], nonce)
  }

  function PendingOf(codec: Codec, window: int, call: Call): Pending
    requires call.op.Begin?
  {
    Pending(call.op.returnTo, codec.trim(call.op.challenge), call.now + window)
  }

  /** The entry of a pending nonce is that of the call that issued it, and the nonce is open. */
  ghost predicate HeldOpen(codec: Codec, window: int, pending: Table, h: seq<Call>, n: string)
    requires n in pending
  {
    exists i :: Open(codec, h, i, n) && pending[n] == PendingOf(codec, window, h[i])
  }

  /** The table holds exactly the open nonces whose window has not been seen to close. */
  ghost predicate Faithful(codec: Codec, window: int, pending: Table, h: seq<Call>, clock: Time) {
    && (forall n :: n in pending ==> HeldOpen(codec, window, pending, h, n))
    && (forall n, i :: Open(codec, h, i, n) && n !in pending ==> h[i].now + window <= clock)
  }

  /** A history's prefix is one too, and only one position issues a given nonce. */
  lemma Prefix(codec: Codec, h: seq<Call>, k: nat)
    requires History(codec, h) && k <= |h|
    ensures History(codec, h[..k]) && (0 < k < |h| ==> h[..k][k - 1].now <= h[k].now)
  {
    var p := h[..k];
    forall i, j, n | 0 <= i < j < |p| && Issues(codec, p[i], n) ensures !Issues(codec, p[j], n) {
      assert p[i] == h[i] && p[j] == h[j];
    }
  }

  lemma IssuedOnce(codec: Codec, h: seq<Call>, n: string, i: int, j: int)
    requires History(codec, h) && 0 <= i < |h| && 0 <= j < |h| && Issues(codec, h[i], n) && Issues(codec, h[j], n)
    ensures i == j
  {
  }

  lemma OpenLonger(codec: Codec, h: seq<Call>, call: Call, i: int, n: string)
    requires 0 <= i < |h|
    ensures (h + [call])[i] == h[i]
    ensures Open(codec, h + [call], i, n) <==> Open(codec, h, i, n) && !Presents(codec, call, n)
  {
    var h' := h + [call];
    assert h'[|h|] == call && forall k :: 0 <= k < |h| ==> h'[k] == h[k];
  }

  lemma StepFaithful(codec: Codec, window: int, pending: Table, h: seq<Call>, call: Call, clock: Time)
    requires Faithful(codec, window, pending, h, clock) && clock <= call.now && window > 0
    requires History(codec, h)
    ensures Faithful(codec, window, Step(codec, window, pending, call).0, h + [call], call.now)
  {
    hide CheckCallback;
    StillPending(codec, window, pending, h, call, clock);
    StillClosed(codec, window, pending, h, call, clock);
  }

  lemma StillPending(codec: Codec, window: int, pending: Table, h: seq<Call>, call: Call, clock: Time)
    requires Faithful(codec, window, pending, h, clock)
    ensures var h', pending' := h + [call], Step(codec, window, pending, call).0;
            forall n :: n in pending' ==> HeldOpen(codec, window, pending', h', n)
  {
    hide CheckCallback, History;
    var h', pending' := h + [call], Step(codec, window, pending, call).0;
    forall n | n in pending' ensures HeldOpen(codec, window, pending', h', n) {
      if Issues(codec, call, n) {
        assert h'[|h|] == call && Open(codec, h', |h|, n);
      } else {
        assert n in pending && pending'[n] == pending[n] && !Presents(codec, call, n);
        hide Step;
        var i :| Open(codec, h, i, n) && pending[n] == PendingOf(codec, window, h[i]);
        OpenLonger(codec, h, call, i, n);
      }
    }
  }

  lemma StillClosed(codec: Codec, window: int, pending: Table, h: seq<Call>, call: Call, clock: Time)
    requires Faithful(codec, window, pending, h, clock) && clock <= call.now && window > 0
    requires History(codec, h)
    ensures var h', pending' := h + [call], Step(codec, window, pending, call).0;
            forall n, i :: Open(codec, h', i, n) && n !in pending' ==> h'[i].now + window <= call.now
  {
    hide CheckCallback, History;
    var h', pending' := h + [call], Step(codec, window, pending, call).0;
    assert h'[|h|] == call && forall n :: Issues(codec, call, n) ==> n in pending';
    forall n, i | Open(codec, h', i, n) && n !in pending' ensures h'[i].now + window <= call.now {
      if i < |h| {
        OpenLonger(codec, h, call, i, n);
        if n in pending {
          assert pending[n].expiresAt <= call.now;
          hide Step;
          var j :| Open(codec, h, j, n) && pending[n] == PendingOf(codec, window, h[j]);
          IssuedOnce(codec, h, n, i, j);
        }
      }
    }
  }

  lemma {:induction false} TableFaithful(codec: Codec, window: int, h: seq<Call>, clock: Time)
    requires History(codec, h) && window > 0 && (h != [] ==> h[|h| - 1].now <= clock)
    ensures Faithful(codec, window, TableAfter(codec, window, h), h, clock)
  {
    if h != [] {
      var init, call := h[..|h| - 1], h[|h| - 1];
      assert TableAfter(codec, window, h) == Step(codec, window, TableAfter(codec, window, init), call).0;
      assert init + [call] == h;
      hide Step, History, Open, Faithful, TableAfter;
      Prefix(codec, h, |h| - 1);
      TableFaithful(codec, window, init, call.now);
      StepFaithful(codec, window, TableAfter(codec, window, init), init, call, call.now);
      FaithfulLater(codec, window, TableAfter(codec, window, h), h, call.now, clock);
    }
  }

  lemma FaithfulLater(codec: Codec, window: int, pending: Table, h: seq<Call>, clock: Time, clock': Time)
    requires Faithful(codec, window, pending, h, clock) && clock <= clock'
    ensures Faithful(codec, window, pending, h, clock')
  {
    hide Issues, Presents;
  }

  /** Beginning fails exactly for a path that is not relative or without a nonce, and then changes nothing. */
  lemma BeginsExactly(codec: Codec, window: int, pending: Table, call: Call)
    requires call.op.Begin?
    ensures var (pending', answer) := Step(codec, window, pending, call);
            if codec.isRelative(call.op.returnTo) && call.op.drawn.Some?
            then answer == Redirected(call.op.drawn.value) && call.op.drawn.value in pending'
            else answer == BeginRefused && pending' == pending
  {
  }

  /**
   Over any history a callback signs on exactly when it passes the checks, its nonce was issued, no call has
   presented it since, and its window is still open; it then carries the user the forum names, and the return path
   and trimmed challenge of the very call that issued it.  Otherwise it is invalid or a replay, never an expired state.
   */
  lemma CompletesExactly(codec: Codec, window: int, h: seq<Call>, call: Call)
    requires History(codec, h) && window > 0 && call.op.Complete? && (h != [] ==> h[|h| - 1].now <= call.now)
    ensures var answer := Step(codec, window, TableAfter(codec, window, h), call).1;
            && (answer == InvalidSSO <==> forall n, d :: !ValidCallback(codec, call.op.cb, n, d))
            && forall n, d :: ValidCallback(codec, call.op.cb, n, d) ==>
                 if answer.SignedOn? then
                   exists i :: Open(codec, h, i, n) && call.now < h[i].now + window
                               && answer.who == Identity(d, codec.trim(h[i].op.challenge), h[i].op.returnTo)
                 else answer == StateReplay && forall i :: Open(codec, h, i, n) ==> h[i].now + window <= call.now
  {
    var claim, answer := CheckCallback(codec, call.op.cb), Step(codec, window, TableAfter(codec, window, h), call).1;
    if claim.Some? {
      CheckCallbackExactly(codec, call.op.cb, claim.value.nonce, claim.value.discourseId);
    }
    Answers(codec, window, h, call);
    hide CheckCallback, History, Presents, TableAfter, Step, Open;
    forall n, d | ValidCallback(codec, call.op.cb, n, d) ensures claim == Some(Claim(n, d)) {
      CheckCallbackExactly(codec, call.op.cb, n, d);
    }
    hide ValidCallback;
  }

  /** The same in terms of the claim the callback makes. */
  lemma Answers(codec: Codec, window: int, h: seq<Call>, call: Call)
    requires History(codec, h) && window > 0 && call.op.Complete? && (h != [] ==> h[|h| - 1].now <= call.now)
    ensures var claim, answer := CheckCallback(codec, call.op.cb),
            Step(codec, window, TableAfter(codec, window, h), call).1;
            if claim.None? then answer == InvalidSSO
            else if answer.SignedOn? then
              exists i :: Open(codec, h, i, claim.value.nonce) && call.now < h[i].now + window
                          && answer.who == Identity(claim.value.discourseId, codec.trim(h[i].op.challenge),
                                                    h[i].op.returnTo)
            else
              && answer == StateReplay
              && forall i :: Open(codec, h, i, claim.value.nonce) ==> h[i].now + window <= call.now
  {
    TableFaithful(codec, window, h, call.now);
    hide CheckCallback, History, Presents, TableAfter;
    var claim, table := CheckCallback(codec, call.op.cb), TableAfter(codec, window, h);
    if claim.Some? && claim.value.nonce in table {
      var i :| Open(codec, h, i, claim.value.nonce) && table[claim.value.nonce] == PendingOf(codec, window, h[i]);
      forall j | Open(codec, h, j, claim.value.nonce) ensures j == i {
        IssuedOnce(codec, h, claim.value.nonce, i, j);
      }
    }
  }

  /** A nonce that signed someone on is a replay from then on. */
  lemma SignsOnOnce(codec: Codec, window: int, h: seq<Call>, i: nat, j: nat)
    requires History(codec, h) && window > 0 && i < j < |h| && h[i].op.Complete? && h[j].op.Complete?
    requires Step(codec, window, TableAfter(codec, window, h[..i]), h[i]).1.SignedOn?
    requires CheckCallback(codec, h[i].op.cb).Some? && CheckCallback(codec, h[j].op.cb).Some?
    requires CheckCallback(codec, h[i].op.cb).value.nonce == CheckCallback(codec, h[j].op.cb).value.nonce
    ensures Step(codec, window, TableAfter(codec, window, h[..j]), h[j]).1 == StateReplay
  {
    var n := CheckCallback(codec, h[i].op.cb).value.nonce;
    assert Presents(codec, h[i], n);
    hide CheckCallback, Step, Presents;
    Prefix(codec, h, i);
    Prefix(codec, h, j);
    Answers(codec, window, h[..i], h[i]);
    Answers(codec, window, h[..j], h[j]);
    hide History, Issues, TableAfter;
    var b :| Open(codec, h[..i], b, n);
    assert h[..i][b] == h[b];
    forall c ensures !Open(codec, h[..j], c, n) {
      NotOpenAgain(codec, h, b, i, c, j, n);
    }
  }

  lemma NotOpenAgain(codec: Codec, h: seq<Call>, b: int, i: nat, c: int, j: nat, n: string)
    requires History(codec, h) && 0 <= b < i < j <= |h| && Issues(codec, h[b], n) && Presents(codec, h[i], n)
    ensures !Open(codec, h[..j], c, n)
  {
    assert h[..j][i] == h[i];
    if Open(codec, h[..j], c, n) {
      IssuedOnce(codec, h, n, b, c);
    }
  }
}
