/** Signed bridge requests and the stores that refuse replayed nonces (internal/identity). */
module Replay {
  import opened Common

  const SECOND: int := 1_000_000_000
  const DEFAULT_SKEW: int := 5 * MINUTE
  const MAX_NONCE := 128
  const MAC_SIZE := 32

  // ---------------------------------------------------------------- the signed text

  function UpperChar(c: char): (r: char)
    ensures r == '\n' <==> c == '\n'
  {
    if 'a' <= c <= 'z' then (c as int - 'a' as int + 'A' as int) as char else c
  }

  function Upper(s: string): (r: string)
    ensures '\n' in r <==> '\n' in s
  {
    var r := seq(|s|, i requires 0 <= i < |s| => UpperChar(s[i]));
    assert forall i :: 0 <= i < |s| ==> (r[i] == '\n' <==> s[i] == '\n');
    r
  }

  function Canonical(verb: string, uri: string, seconds: int, nonce: string, body: string): string {
    Upper(verb) + ("\n" + (uri + ("\n" + (Decimal(seconds) + ("\n" + (nonce + ("\n" + body)))))))
  }

  lemma FirstBreak(s: string, a: string, rest: string)
    requires s == a + ("\n" + rest) && '\n' !in a
    ensures |a| < |s| && s[|a|] == '\n' && (forall k :: 0 <= k < |a| ==> s[k] != '\n')
    ensures a == s[..|a|] && rest == s[|a| + 1..]
  {
    assert forall k :: 0 <= k < |a| ==> s[k] == a[k];
  }

  /** A field without line breaks can be read back from in front of the first line break. */
  lemma Cut(a: string, rest: string, b: string, tail: string)
    requires '\n' !in a && '\n' !in b && a + ("\n" + rest) == b + ("\n" + tail)
    ensures a == b && rest == tail
  {
    var s := a + ("\n" + rest);
    FirstBreak(s, a, rest);
    FirstBreak(s, b, tail);
  }

  /** The first line of a text and what follows it. */
  function ReadLine(s: string): (string, string) {
    if s == "" then ("", "") else if s[0] == '\n' then ("", s[1..])
    else var (line, rest) := ReadLine(s[1..]); ([s[0]] + line, rest)
  }

  lemma {:induction false} ReadBack(a: string, rest: string)
    requires '\n' !in a
    ensures ReadLine(a + ("\n" + rest)) == (a, rest)
  {
    var s := a + ("\n" + rest);
    if a == "" {
      assert s == "\n" + rest && s[1..] == rest;
    } else {
      assert s[0] == a[0] && s[1..] == a[1..] + ("\n" + rest);
      ReadBack(a[1..], rest);
      assert [a[0]] + a[1..] == a;
    }
  }

  /** The signed text holds upper-cased method, address, timestamp and nonce on a line each, and then the body. */
  lemma CanonicalLines(verb: string, uri: string, seconds: int, nonce: string, body: string)
    requires '\n' !in verb && '\n' !in uri && '\n' !in nonce
    ensures var (first, r1) := ReadLine(Canonical(verb, uri, seconds, nonce, body));
            var (second, r2) := ReadLine(r1);
            var (third, r3) := ReadLine(r2);
            var (fourth, r4) := ReadLine(r3);
            first == Upper(verb) && second == uri && third == Decimal(seconds) && fourth == nonce && r4 == body
  {
    var r3 := nonce + ("\n" + body);
    var r2 := Decimal(seconds) + ("\n" + r3);
    var r1 := uri + ("\n" + r2);
    ReadBack(Upper(verb), r1);
    ReadBack(uri, r2);
    ReadBack(Decimal(seconds), r3);
    ReadBack(nonce, body);
    hide ReadLine, Decimal, Upper;
  }

  /** Upper-casing keeps the length, maps a to z to A to Z and leaves the rest. */
  lemma UpperExactly(s: string)
    ensures |Upper(s)| == |s|
    ensures forall i :: 0 <= i < |s| ==>
                          Upper(s)[i] as int == if 'a' <= s[i] <= 'z' then s[i] as int - 32 else s[i] as int
  {
  }

  /** The signed text determines the request, up to the letter case of the method. */
  lemma CanonicalInjective(verb: string, uri: string, seconds: int, nonce: string, body: string,
                           verb': string, uri': string, seconds': int, nonce': string, body': string)
    requires '\n' !in verb && '\n' !in uri && '\n' !in nonce && '\n' !in verb' && '\n' !in uri' && '\n' !in nonce'
    ensures Canonical(verb, uri, seconds, nonce, body) == Canonical(verb', uri', seconds', nonce', body')
            <==> Upper(verb) == Upper(verb') && uri == uri' && seconds == seconds' && nonce == nonce' && body == body'
  {
    if Canonical(verb, uri, seconds, nonce, body) == Canonical(verb', uri', seconds', nonce', body') {
      var r4, r4' := nonce + ("\n" + body), nonce' + ("\n" + body');
      var r3, r3' := Decimal(seconds) + ("\n" + r4), Decimal(seconds') + ("\n" + r4');
      Cut(Upper(verb), uri + ("\n" + r3), Upper(verb'), uri' + ("\n" + r3'));
      Cut(uri, r3, uri', r3');
      Cut(Decimal(seconds), r4, Decimal(seconds'), r4');
      DecimalInjective(seconds, seconds');
      Cut(nonce, body, nonce', body');
    }
  }

  // ---------------------------------------------------------------- the checks before the nonce store

  datatype Request = Request(verb: string, uri: string, timestamp: string, nonce: string, signature: string,
                             body: string)

  /** Library functions: integer parsing, hex decoding, HMAC-SHA-256 and white-space trimming. */
  datatype Codec = Codec(
    parseInt: string -> Option<int>, decodeHex: string -> Option<seq<int>>, mac: (string, string) -> seq<int>,
    trim: string -> string)

  datatype Keys = Keys(secret: string, maxSkew: int)

  datatype Error = InvalidSignature | ExpiredRequest | Replayed

  /** What a request that passes the checks asks the nonce store: its nonce and when the nonce may be forgotten. */
  datatype Ticket = Ticket(seconds: int, nonce: string, expiresAt: Time)

  function Check(codec: Codec, keys: Keys, r: Request, now: Time): (t: Reply<Ticket, Error>)
    ensures t.Ok? ==>
              t.value.expiresAt == t.value.seconds * SECOND + keys.maxSkew && t.value.nonce == codec.trim(r.nonce) != ""
    ensures t.Ok? ==> t.value.expiresAt - 2 * keys.maxSkew <= now <= t.value.expiresAt
    ensures t.Ok? ==>
              codec.decodeHex(codec.trim(r.signature))
              == Some(codec.mac(keys.secret, Canonical(r.verb, r.uri, t.value.seconds, t.value.nonce, r.body)))
  {
    var stamp, nonce, signature := codec.trim(r.timestamp), codec.trim(r.nonce), codec.trim(r.signature);
    if stamp == "" || nonce == "" || signature == "" || |nonce| > MAX_NONCE then Err(InvalidSignature)
    else
      var seconds := codec.parseInt(stamp);
      if seconds.None? then Err(InvalidSignature)
      else
        var timestamp := seconds.value * SECOND;
        if now - timestamp > keys.maxSkew || timestamp - now > keys.maxSkew then Err(ExpiredRequest)
        else
          var provided := codec.decodeHex(signature);
          if provided.None? || |provided.value| != MAC_SIZE
             || provided.value != codec.mac(keys.secret, Canonical(r.verb, r.uri, seconds.value, nonce, r.body))
          then Err(InvalidSignature)
          else Ok(Ticket(seconds.value, nonce, timestamp + keys.maxSkew))
  }

  /**
   A request passes exactly within the skew, with a short nonce and the signature of its own text; its ticket names all
   three.
   */
  lemma CheckExactly(codec: Codec, keys: Keys, r: Request, now: Time, seconds: int, nonce: string, expiresAt: Time)
    ensures Check(codec, keys, r, now) == Ok(Ticket(seconds, nonce, expiresAt)) <==>
              && nonce == codec.trim(r.nonce) && 1 <= |nonce| <= 128
              && codec.trim(r.timestamp) != "" && codec.parseInt(codec.trim(r.timestamp)) == Some(seconds)
              && -keys.maxSkew <= now - seconds * 1_000_000_000 <= keys.maxSkew
              && expiresAt == seconds * 1_000_000_000 + keys.maxSkew
              && codec.trim(r.signature) != ""
              && codec.decodeHex(codec.trim(r.signature))
                 == Some(codec.mac(keys.secret, Canonical(r.verb, r.uri, seconds, nonce, r.body)))
              && |codec.mac(keys.secret, Canonical(r.verb, r.uri, seconds, nonce, r.body))| == 32
  {
    hide Canonical;
  }

  /** Why a request is refused: late or early ones that are otherwise readable, and all others. */
  lemma RefusedExactly(codec: Codec, keys: Keys, r: Request, now: Time)
    ensures Check(codec, keys, r, now) == Err(ExpiredRequest) <==>
              && codec.trim(r.timestamp) != "" && 1 <= |codec.trim(r.nonce)| <= 128 && codec.trim(r.signature) != ""
              && var seconds := codec.parseInt(codec.trim(r.timestamp));
                 seconds.Some? && !(-keys.maxSkew <= now - seconds.value * 1_000_000_000 <= keys.maxSkew)
  {
    hide Canonical;
  }

  /** One signature fits one request only, up to the letter case of the method. */
  lemma SignatureBinds(codec: Codec, keys: Keys, r: Request, now: Time, r': Request, now': Time)
    requires forall s, t, t' :: codec.mac(s, t) == codec.mac(s, t') ==> t == t'
    requires Check(codec, keys, r, now).Ok? && Check(codec, keys, r', now').Ok? && r.signature == r'.signature
    requires '\n' !in r.verb && '\n' !in r.uri && '\n' !in codec.trim(r.nonce)
    requires '\n' !in r'.verb && '\n' !in r'.uri && '\n' !in codec.trim(r'.nonce)
    ensures Check(codec, keys, r, now).value == Check(codec, keys, r', now').value
    ensures Upper(r.verb) == Upper(r'.verb) && r.uri == r'.uri && r.body == r'.body
  {
    hide Canonical;
    var t, t' := Check(codec, keys, r, now).value, Check(codec, keys, r', now').value;
    CanonicalInjective(r.verb, r.uri, t.seconds, t.nonce, r.body, r'.verb, r'.uri, t'.seconds, t'.nonce, r'.body);
  }

  // ---------------------------------------------------------------- the two nonce stores

  type Nonces = map<string, Time>

  /** The nonces not yet forgotten at an instant. */
  function Kept(nonces: Nonces, now: Time): Nonces {
    map n | n in nonces && nonces[n] > now :: nonces[n]
  }

  /** The in-process store: forget what has expired, then refuse a nonce that is still there. */
  function MemoryCheck(nonces: Nonces, nonce: string, expiresAt: Time, read: Time): (Nonces, bool) {
    var kept := Kept(nonces, read);
    if nonce in kept then (kept, false) else (kept[nonce := expiresAt], true)
  }

  class MemoryNonceStore {
    var values: Nonces

    constructor ()
      ensures values == map[]
    {
      values := map[];
    }

    method CheckAndStore(nonce: string, expiresAt: Time, read: Time) returns (ok: bool)
      modifies this
      ensures (values, ok) == MemoryCheck(old(values), nonce, expiresAt, read)
    {
      var left := values.Keys;
      while left != {}
        invariant left <= values.Keys <= old(values).Keys
        invariant forall n :: n in values ==> values[n] == old(values)[n]
        invariant forall n :: n in old(values) && n !in left ==> (n in values <==> old(values)[n] > read)
        decreases left
      {
        var key :| key in left;
        left := left - {key};
        if !(values[key] > read) {
          values := values - {key};
        }
      }
      assert values == Kept(old(values), read);
      if nonce in values {
        return false;
      }
      values := values[nonce := expiresAt];
      ok := true;
    }
  }

  datatype Verdict = Accepted | Rejected(error: Error)

  /**
   The Redis store reads its clock at `read` and the server executes SETNX at `served`; nonces[n] is when n is evicted.
   */
  function RedisCheck(nonces: Nonces, nonce: string, expiresAt: Time, read: Time, served: Time): (Nonces, Verdict) {
    var ttl := expiresAt - read;
    if ttl <= 0 then (nonces, Rejected(ExpiredRequest))
    else
      var kept := Kept(nonces, served);
      if nonce in kept then (kept, Rejected(Replayed)) else (kept[nonce := served + ttl], Accepted)
  }

  class RedisNonceStore {
    var keys: Nonces

    constructor ()
      ensures keys == map[]
    {
      keys := map[];
    }

    /** SET with NX and a time to live, as the server executes it at `served`. */
    method SetNX(nonce: string, ttl: int, served: Time) returns (ok: bool)
      modifies this
      ensures ok == (nonce !in Kept(old(keys), served))
      ensures keys == if ok then Kept(old(keys), served)[nonce := served + ttl] else Kept(old(keys), served)
    {
      keys := map n | n in keys && keys[n] > served :: keys[n];
      ok := nonce !in keys;
      if ok {
        keys := keys[nonce := served + ttl];
      }
    }

    method CheckAndStore(nonce: string, expiresAt: Time, read: Time, served: Time) returns (v: Verdict)
      modifies this
      ensures (keys, v) == RedisCheck(old(keys), nonce, expiresAt, read, served)
    {
      var ttl := expiresAt - read;
      if ttl <= 0 {
        return Rejected(ExpiredRequest);
      }
      var ok := SetNX(nonce, ttl, served);
      v := if ok then Accepted else Rejected(Replayed);
    }
  }

  // ---------------------------------------------------------------- verification

  /** The clock readings of one verification, in order. */
  datatype Clock = Clock(now: Time, read: Time, served: Time)

  predicate InOrder(c: Clock) {
    c.now <= c.read <= c.served
  }

  function VerifyRedis(codec: Codec, keys: Keys, nonces: Nonces, r: Request, c: Clock): (Nonces, Verdict) {
    var t := Check(codec, keys, r, c.now);
    if t.Err? then (nonces, Rejected(t.error))
    else RedisCheck(nonces, t.value.nonce, t.value.expiresAt, c.read, c.served)
  }

  function VerifyMemory(codec: Codec, keys: Keys, nonces: Nonces, r: Request, c: Clock): (Nonces, Verdict) {
    var t := Check(codec, keys, r, c.now);
    if t.Err? then (nonces, Rejected(t.error))
    else
      var (nonces', ok) := MemoryCheck(nonces, t.value.nonce, t.value.expiresAt, c.read);
      (nonces', if ok then Accepted else Rejected(Replayed))
  }

  class Verifier {
    const codec: Codec
    const keys: Keys
    const nonces: RedisNonceStore

    constructor (codec: Codec, secret: string, maxSkew: int, nonces: RedisNonceStore)
      ensures this.codec == codec && this.nonces == nonces
      ensures keys == Keys(secret, if maxSkew <= 0 then 300_000_000_000 else maxSkew)
    {
      this.codec := codec;
      this.keys := Keys(secret, if maxSkew <= 0 then DEFAULT_SKEW else maxSkew);
      this.nonces := nonces;
    }

    method Verify(r: Request, c: Clock) returns (v: Verdict)
      modifies nonces
      ensures (nonces.keys, v) == VerifyRedis(codec, keys, old(nonces.keys), r, c)
    {
      var t := Check(codec, keys, r, c.now);
      if t.Err? {
        return Rejected(t.error);
      }
      v := nonces.CheckAndStore(t.value.nonce, t.value.expiresAt, c.read, c.served);
    }
  }

  // ---------------------------------------------------------------- runs

  /** A run of verifications against one store: states[i] is what the store holds before requests[i]. */
  datatype Run = Run(states: seq<Nonces>, requests: seq<Request>, clocks: seq<Clock>)

  /** Clock readings never go back, within a verification or from one to the next. */
  ghost predicate Timed(run: Run) {
    && |run.states| == |run.requests| + 1 && |run.clocks| == |run.requests|
    && (forall i :: 0 <= i < |run.clocks| ==> InOrder(run.clocks[i]))
    && (forall i, j :: 0 <= i < j < |run.clocks| ==> run.clocks[i].served <= run.clocks[j].now)
  }

  ghost predicate RedisStepAt(codec: Codec, keys: Keys, run: Run, i: int)
    requires 0 <= i < |run.requests| && |run.clocks| == |run.requests| < |run.states|
  {
    run.states[i + 1] == VerifyRedis(codec, keys, run.states[i], run.requests[i], run.clocks[i]).0
  }

  ghost predicate RedisRun(codec: Codec, keys: Keys, run: Run) {
    Timed(run) && forall i :: 0 <= i < |run.requests| ==> RedisStepAt(codec, keys, run, i)
  }

  ghost predicate MemoryStepAt(codec: Codec, keys: Keys, run: Run, i: int)
    requires 0 <= i < |run.requests| && |run.clocks| == |run.requests| < |run.states|
  {
    run.states[i + 1] == VerifyMemory(codec, keys, run.states[i], run.requests[i], run.clocks[i]).0
  }

  ghost predicate MemoryRun(codec: Codec, keys: Keys, run: Run) {
    Timed(run) && forall i :: 0 <= i < |run.requests| ==> MemoryStepAt(codec, keys, run, i)
  }

  function TicketAt(codec: Codec, keys: Keys, run: Run, i: nat): Reply<Ticket, Error>
    requires i < |run.requests| && i < |run.clocks|
  {
    Check(codec, keys, run.requests[i], run.clocks[i].now)
  }

  predicate RedisAccepts(codec: Codec, keys: Keys, run: Run, i: nat)
    requires i < |run.requests| && i < |run.clocks| && i < |run.states|
  {
    VerifyRedis(codec, keys, run.states[i], run.requests[i], run.clocks[i]).1.Accepted?
  }

  predicate MemoryAccepts(codec: Codec, keys: Keys, run: Run, i: nat)
    requires i < |run.requests| && i < |run.clocks| && i < |run.states|
  {
    VerifyMemory(codec, keys, run.states[i], run.requests[i], run.clocks[i]).1.Accepted?
  }

  /** When the server evicts the nonce that request i stored. */
  function Eviction(codec: Codec, keys: Keys, run: Run, i: nat): Time
    requires i < |run.requests| && i < |run.clocks| && TicketAt(codec, keys, run, i).Ok?
  {
    run.clocks[i].served + TicketAt(codec, keys, run, i).value.expiresAt - run.clocks[i].read
  }

  /** Until its eviction, an accepted nonce stays in the Redis store, whatever else is verified. */
  lemma {:induction false} RedisHolds(codec: Codec, keys: Keys, run: Run, i: nat, j: nat)
    requires RedisRun(codec, keys, run) && i < j < |run.requests| && RedisAccepts(codec, keys, run, i)
    requires run.clocks[j].served < Eviction(codec, keys, run, i)
    ensures var nonce := TicketAt(codec, keys, run, i).value.nonce;
            nonce in run.states[j] && run.states[j][nonce] == Eviction(codec, keys, run, i)
  {
    hide Check;
    assert InOrder(run.clocks[j]);
    if j == i + 1 {
      assert RedisStepAt(codec, keys, run, i);
    } else {
      assert run.clocks[j - 1].served <= run.clocks[j].now;
      RedisHolds(codec, keys, run, i, j - 1);
      assert RedisStepAt(codec, keys, run, j - 1);
    }
  }

  /**
   The same timestamp and nonce are accepted twice only if the second call waited longer for the server than the first.
   */
  lemma AcceptedTwice(codec: Codec, keys: Keys, run: Run, i: nat, j: nat)
    requires RedisRun(codec, keys, run) && i < j < |run.requests|
    requires RedisAccepts(codec, keys, run, i) && RedisAccepts(codec, keys, run, j)
    requires TicketAt(codec, keys, run, i) == TicketAt(codec, keys, run, j)
    ensures run.clocks[j].served - run.clocks[j].read > run.clocks[i].served - run.clocks[i].read
  {
    hide Check;
    if run.clocks[j].served < Eviction(codec, keys, run, i) {
      RedisHolds(codec, keys, run, i, j);
    }
  }

  /** The server executes the command while the request's window is still open. */
  predicate ServedInWindow(codec: Codec, keys: Keys, run: Run, i: nat)
    requires i < |run.requests| && i < |run.clocks|
  {
    TicketAt(codec, keys, run, i).Ok? ==> run.clocks[i].served < TicketAt(codec, keys, run, i).value.expiresAt
  }

  /** Served within its window, no signed request is accepted twice in any run, whatever the delays were. */
  lemma AcceptedOnce(codec: Codec, keys: Keys, run: Run, i: nat, j: nat)
    requires RedisRun(codec, keys, run) && i < j < |run.requests|
    requires RedisAccepts(codec, keys, run, i) && TicketAt(codec, keys, run, i) == TicketAt(codec, keys, run, j)
    requires ServedInWindow(codec, keys, run, j)
    ensures !RedisAccepts(codec, keys, run, j)
  {
    hide Check;
    assert InOrder(run.clocks[i]);
    RedisHolds(codec, keys, run, i, j);
  }

  // ---------------------------------------------------------------- exactly when a replay gets through

  /** The nonce is on record with this expiry, or the store has read its clock at or after it. */
  predicate Remembers(nonces: Nonces, nonce: string, expiresAt: Time, read: Time) {
    if nonce in nonces then nonces[nonce] == expiresAt else expiresAt <= read
  }

  lemma Remembered(codec: Codec, keys: Keys, nonces: Nonces, r: Request, c: Clock, nonce: string, expiresAt: Time)
    requires Remembers(nonces, nonce, expiresAt, c.read)
    requires VerifyMemory(codec, keys, nonces, r, c).1.Accepted? ==> Check(codec, keys, r, c.now).value.nonce != nonce
    ensures Remembers(VerifyMemory(codec, keys, nonces, r, c).0, nonce, expiresAt, c.read)
  {
    hide Check;
  }

  /** An accepted nonce stays in the in-process store until a clock reading at or after its expiry. */
  lemma {:induction false} MemoryHolds(codec: Codec, keys: Keys, run: Run, i: nat, j: nat)
    requires MemoryRun(codec, keys, run) && i < j < |run.requests| && MemoryAccepts(codec, keys, run, i)
    requires forall k :: i < k < j && MemoryAccepts(codec, keys, run, k) ==>
                           TicketAt(codec, keys, run, k).value.nonce != TicketAt(codec, keys, run, i).value.nonce
    ensures var t := TicketAt(codec, keys, run, i).value;
            Remembers(run.states[j], t.nonce, t.expiresAt, run.clocks[j].read)
  {
    hide Check;
    assert InOrder(run.clocks[j]) && InOrder(run.clocks[j - 1]) && run.clocks[j - 1].served <= run.clocks[j].now;
    assert MemoryStepAt(codec, keys, run, j - 1);
    if i < j - 1 {
      var t := TicketAt(codec, keys, run, i).value;
      MemoryHolds(codec, keys, run, i, j - 1);
      assert MemoryAccepts(codec, keys, run, j - 1) ==> TicketAt(codec, keys, run, j - 1).value.nonce != t.nonce;
      hide MemoryRun;
      Remembered(codec, keys, run.states[j - 1], run.requests[j - 1], run.clocks[j - 1], t.nonce, t.expiresAt);
      hide VerifyMemory;
    }
  }

  /**
   The in-process store lets the next replay through exactly when it reads the clock at or after the closing instant.
   */
  lemma MemoryReplayExactly(codec: Codec, keys: Keys, run: Run, i: nat, j: nat)
    requires MemoryRun(codec, keys, run) && i < j < |run.requests| && MemoryAccepts(codec, keys, run, i)
    requires TicketAt(codec, keys, run, j) == TicketAt(codec, keys, run, i)
    requires forall k :: i < k < j && MemoryAccepts(codec, keys, run, k) ==>
                           TicketAt(codec, keys, run, k).value.nonce != TicketAt(codec, keys, run, i).value.nonce
    ensures MemoryAccepts(codec, keys, run, j) <==> run.clocks[j].read >= TicketAt(codec, keys, run, i).value.expiresAt
  {
    hide Check;
    MemoryHolds(codec, keys, run, i, j);
  }

  /**
   The Redis store lets the next replay through exactly when it reads the clock in time but is served after the
   eviction.
   */
  lemma RedisReplayExactly(codec: Codec, keys: Keys, run: Run, i: nat, j: nat)
    requires RedisRun(codec, keys, run) && i < j < |run.requests| && RedisAccepts(codec, keys, run, i)
    requires TicketAt(codec, keys, run, j) == TicketAt(codec, keys, run, i)
    requires forall k :: i < k < j && RedisAccepts(codec, keys, run, k) ==>
                           TicketAt(codec, keys, run, k).value.nonce != TicketAt(codec, keys, run, i).value.nonce
    ensures RedisAccepts(codec, keys, run, j) <==>
              && run.clocks[j].read < TicketAt(codec, keys, run, i).value.expiresAt
              && run.clocks[j].served >= Eviction(codec, keys, run, i)
  {
    hide Check;
    if run.clocks[j].served < Eviction(codec, keys, run, i) {
      RedisHolds(codec, keys, run, i, j);
    } else {
      RedisOwn(codec, keys, run, i, j);
    }
  }

  /** Whatever the Redis store holds of an accepted nonce is the entry made at its acceptance. */
  lemma {:induction false} RedisOwn(codec: Codec, keys: Keys, run: Run, i: nat, j: nat)
    requires RedisRun(codec, keys, run) && i < j < |run.requests| && RedisAccepts(codec, keys, run, i)
    requires forall k :: i < k < j && RedisAccepts(codec, keys, run, k) ==>
                           TicketAt(codec, keys, run, k).value.nonce != TicketAt(codec, keys, run, i).value.nonce
    ensures var nonce := TicketAt(codec, keys, run, i).value.nonce;
            nonce in run.states[j] ==> run.states[j][nonce] == Eviction(codec, keys, run, i)
  {
    hide Check;
    if j == i + 1 {
      assert RedisStepAt(codec, keys, run, i);
    } else {
      RedisOwn(codec, keys, run, i, j - 1);
      assert RedisStepAt(codec, keys, run, j - 1);
      assert RedisAccepts(codec, keys, run, j - 1) ==>
               TicketAt(codec, keys, run, j - 1).value.nonce != TicketAt(codec, keys, run, i).value.nonce;
    }
  }

  /** Any request that still passes at its closing instant is accepted there again and again by the in-process store. */
  lemma MemoryAcceptsTwice(codec: Codec, keys: Keys, r: Request, at: Time) returns (run: Run)
    requires Check(codec, keys, r, at).Ok? && Check(codec, keys, r, at).value.expiresAt == at
    ensures MemoryRun(codec, keys, run) && run.requests == [r, r] && run.states[0] == map[]
    ensures MemoryAccepts(codec, keys, run, 0) && MemoryAccepts(codec, keys, run, 1)
  {
    hide Check;
    var c := Clock(at, at, at);
    var held: Nonces := map[Check(codec, keys, r, at).value.nonce := at];
    run := Run([map[], held, held], [r, r], [c, c]);
    assert Kept(map[], at) == map[];
    assert Kept(held, at) == map[];
  }

  /** A call that waits for the Redis server past the eviction gets a replay through. */
  lemma RedisAcceptsLate(codec: Codec, keys: Keys, r: Request, at: Time) returns (run: Run)
    requires Check(codec, keys, r, at).Ok? && at < Check(codec, keys, r, at).value.expiresAt
    ensures RedisRun(codec, keys, run) && run.requests == [r, r] && run.states[0] == map[]
    ensures RedisAccepts(codec, keys, run, 0) && RedisAccepts(codec, keys, run, 1)
  {
    hide Check;
    var t := Check(codec, keys, r, at).value;
    var first, later := Clock(at, at, at), Clock(at, at, t.expiresAt);
    var held: Nonces := map[t.nonce := t.expiresAt];
    run := Run([map[], held, map[t.nonce := t.expiresAt + t.expiresAt - at]], [r, r], [first, later]);
    assert Kept(map[], at) == map[];
    assert Kept(held, t.expiresAt) == map[];
  }

  // ---------------------------------------------------------------- closed forms over whole runs

  /** An earlier request with this nonce was accepted and is still on record when request j is served. */
  ghost predicate RedisBlocked(codec: Codec, keys: Keys, run: Run, j: nat, served: Time, nonce: string)
    requires Timed(run) && j <= |run.requests|
  {
    exists i :: 0 <= i < j && RedisAccepts(codec, keys, run, i) && TicketAt(codec, keys, run, i).value.nonce == nonce
                && served < Eviction(codec, keys, run, i)
  }

  /** What the Redis store holds at an instant is exactly what earlier acceptances put there for longer. */
  lemma {:induction false} RedisHeld(codec: Codec, keys: Keys, run: Run, j: nat, served: Time, nonce: string)
    requires RedisRun(codec, keys, run) && j <= |run.requests| && run.states[0] == map[]
    requires j > 0 ==> run.clocks[j - 1].served <= served
    ensures nonce in run.states[j] && served < run.states[j][nonce]
            <==> RedisBlocked(codec, keys, run, j, served, nonce)
  {
    if j > 0 {
      hide Check;
      var last := run.clocks[j - 1];
      assert InOrder(last) && RedisStepAt(codec, keys, run, j - 1);
      assert j > 1 ==> run.clocks[j - 2].served <= last.now;
      RedisHeld(codec, keys, run, j - 1, last.served, nonce);
      RedisHeld(codec, keys, run, j - 1, served, nonce);
      RedisBlockedStep(codec, keys, run, j, served, nonce);
    }
  }

  lemma RedisBlockedStep(codec: Codec, keys: Keys, run: Run, j: nat, served: Time, nonce: string)
    requires Timed(run) && 0 < j <= |run.requests|
    ensures RedisBlocked(codec, keys, run, j, served, nonce) <==>
              || RedisBlocked(codec, keys, run, j - 1, served, nonce)
              || (&& RedisAccepts(codec, keys, run, j - 1) && TicketAt(codec, keys, run, j - 1).value.nonce == nonce
                  && served < Eviction(codec, keys, run, j - 1))
  {
    hide Check;
  }

  /**
   With the Redis store, from no nonces, a request is accepted exactly if it passes the checks, is read before its
   window closes, and no accepted request with its nonce is still on record.
   */
  lemma RedisExactly(codec: Codec, keys: Keys, run: Run, j: nat)
    requires RedisRun(codec, keys, run) && j < |run.requests| && run.states[0] == map[]
    ensures RedisAccepts(codec, keys, run, j) <==>
              && TicketAt(codec, keys, run, j).Ok?
              && run.clocks[j].read < TicketAt(codec, keys, run, j).value.expiresAt
              && !RedisBlocked(codec, keys, run, j, run.clocks[j].served, TicketAt(codec, keys, run, j).value.nonce)
  {
    hide Check;
    assert InOrder(run.clocks[j]) && (j > 0 ==> run.clocks[j - 1].served <= run.clocks[j].now);
    if TicketAt(codec, keys, run, j).Ok? {
      RedisHeld(codec, keys, run, j, run.clocks[j].served, TicketAt(codec, keys, run, j).value.nonce);
    }
  }

  /** An earlier request with this nonce was accepted whose window is still open at the reading. */
  ghost predicate MemoryBlocked(codec: Codec, keys: Keys, run: Run, j: nat, read: Time, nonce: string)
    requires Timed(run) && j <= |run.requests|
  {
    exists i :: 0 <= i < j && MemoryAccepts(codec, keys, run, i) && TicketAt(codec, keys, run, i).value.nonce == nonce
                && read < TicketAt(codec, keys, run, i).value.expiresAt
  }

  lemma {:induction false} MemoryHeld(codec: Codec, keys: Keys, run: Run, j: nat, read: Time, nonce: string)
    requires MemoryRun(codec, keys, run) && j <= |run.requests| && run.states[0] == map[]
    requires j > 0 ==> run.clocks[j - 1].served <= read
    ensures nonce in run.states[j] && read < run.states[j][nonce] <==> MemoryBlocked(codec, keys, run, j, read, nonce)
  {
    if j > 0 {
      hide Check;
      var last := run.clocks[j - 1];
      assert InOrder(last) && MemoryStepAt(codec, keys, run, j - 1);
      assert j > 1 ==> run.clocks[j - 2].served <= last.now;
      MemoryHeld(codec, keys, run, j - 1, last.read, nonce);
      MemoryHeld(codec, keys, run, j - 1, read, nonce);
      MemoryBlockedStep(codec, keys, run, j, read, nonce);
    }
  }

  lemma MemoryBlockedStep(codec: Codec, keys: Keys, run: Run, j: nat, read: Time, nonce: string)
    requires Timed(run) && 0 < j <= |run.requests|
    ensures MemoryBlocked(codec, keys, run, j, read, nonce) <==>
              || MemoryBlocked(codec, keys, run, j - 1, read, nonce)
              || (&& MemoryAccepts(codec, keys, run, j - 1) && TicketAt(codec, keys, run, j - 1).value.nonce == nonce
                  && read < TicketAt(codec, keys, run, j - 1).value.expiresAt)
  {
    hide Check;
  }

  /**
   With the in-process store, a request is accepted exactly if it passes the checks and no accepted request with its
   nonce has a window still open at the store's reading.
   */
  lemma MemoryExactly(codec: Codec, keys: Keys, run: Run, j: nat)
    requires MemoryRun(codec, keys, run) && j < |run.requests| && run.states[0] == map[]
    ensures MemoryAccepts(codec, keys, run, j) <==>
              && TicketAt(codec, keys, run, j).Ok?
              && !MemoryBlocked(codec, keys, run, j, run.clocks[j].read, TicketAt(codec, keys, run, j).value.nonce)
  {
    hide Check;
    assert InOrder(run.clocks[j]) && (j > 0 ==> run.clocks[j - 1].served <= run.clocks[j].now);
    if TicketAt(codec, keys, run, j).Ok? {
      MemoryHeld(codec, keys, run, j, run.clocks[j].read, TicketAt(codec, keys, run, j).value.nonce);
    }
  }
}
