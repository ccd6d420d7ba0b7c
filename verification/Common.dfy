/** Values shared by every component: optional values, replies, instants and text trimming. */
module Common {

  datatype Option<+T> = None | Some(value: T)

  /** What a call answers: a value, or the reason it was refused. */
  datatype Reply<+T, +E> = Ok(value: T) | Err(error: E)

  /** Instants and durations share one unbounded integer scale; 0 is the zero instant. */
  type Time = int
  const ZERO_TIME: Time := 0

  const MINUTE: int := 60_000_000_000

  /** The characters that strings.TrimSpace and strings.Fields treat as white space. */
  predicate IsSpace(c: char) {
    '\t' <= c <= '\r' || c == ' ' || c == '\U{85}' || c == '\U{A0}' || c == '\U{1680}'
    || '\U{2000}' <= c <= '\U{200A}' || c == '\U{2028}' || c == '\U{2029}' || c == '\U{202F}'
    || c == '\U{205F}' || c == '\U{3000}'
  }

  /** The same by code point: tab to carriage return, space, and Unicode's other white space. */
  lemma SpacePoints(c: char)
    ensures IsSpace(c) <==>
              || c as int in {9, 10, 11, 12, 13, 0x20, 0x85, 0xA0, 0x1680, 0x2028, 0x2029, 0x202F, 0x205F, 0x3000}
              || 0x2000 <= c as int <= 0x200A
  {
  }

  function TrimLeft(s: string): (r: string)
    ensures r == "" || !IsSpace(r[0])
    ensures |r| <= |s| && r == s[|s| - |r|..] && forall i :: 0 <= i < |s| - |r| ==> IsSpace(s[i])
  {
    if s != "" && IsSpace(s[0]) then TrimLeft(s[1..]) else s
  }

  function TrimRight(s: string): (r: string)
    ensures r == "" || !IsSpace(r[|r| - 1])
    ensures |r| <= |s| && r == s[..|r|] && forall i :: |r| <= i < |s| ==> IsSpace(s[i])
  {
    if s != "" && IsSpace(s[|s| - 1]) then TrimRight(s[..|s| - 1]) else s
  }

  /** strings.TrimSpace. */
  function Trim(s: string): (r: string)
    ensures r == "" || (!IsSpace(r[0]) && !IsSpace(r[|r| - 1]))
  {
    TrimRight(TrimLeft(s))
  }

  predicate Blank(s: string) {
    Trim(s) == ""
  }

  predicate AllSpace(s: string) {
    forall i :: 0 <= i < |s| ==> IsSpace(s[i])
  }

  lemma Rejoined(s: string, t: string, r: string)
    requires |r| <= |t| <= |s| && t == s[|s| - |t|..] && r == t[..|r|]
    ensures s == s[..|s| - |t|] + r + t[|r|..]
  {
    assert t == r + t[|r|..];
  }

  /** Trimming removes white space from both ends and nothing else. */
  lemma TrimMeaning(s: string) returns (left: string, right: string)
    ensures s == left + Trim(s) + right && AllSpace(left) && AllSpace(right)
  {
    var t := TrimLeft(s);
    var r := TrimRight(t);
    assert Trim(s) == r;
    left, right := s[..|s| - |t|], t[|r|..];
    assert AllSpace(left) && AllSpace(right);
    hide IsSpace, AllSpace, TrimLeft, TrimRight, Trim;
    Rejoined(s, t, r);
  }

  /** A text is blank exactly if it holds nothing but white space. */
  lemma BlankMeaning(s: string)
    ensures Blank(s) <==> AllSpace(s)
  {
    hide IsSpace;
    var left, right := TrimMeaning(s);
    if Blank(s) {
      assert s == left + right;
    } else {
      assert s[|left|] == Trim(s)[0];
    }
  }

  lemma TrimIdempotent(s: string)
    ensures Trim(Trim(s)) == Trim(s)
  {
    var r := Trim(s);
    assert TrimLeft(r) == r && TrimRight(r) == r;
  }

  // ---------------------------------------------------------------- decimal rendering

  const DIGITS := "0123456789"

  function Digits(n: nat): (r: string)
    ensures r != "" && '\n' !in r && '-' !in r && (n >= 10 <==> |r| >= 2)
  {
    if n < 10 then [DIGITS[n]] else Digits(n / 10) + [DIGITS[n % 10]]
  }

  /** strconv.FormatInt in base ten. */
  function Decimal(n: int): (r: string)
    ensures r != "" && '\n' !in r
  {
    if n < 0 then "-" + Digits(-n) else Digits(n)
  }

  /** The number a string of digits stands for. */
  function Value(s: string): int {
    if s == "" then 0 else 10 * Value(s[..|s| - 1]) + (s[|s| - 1] as int - '0' as int)
  }

  lemma {:induction false} DigitsValue(n: nat)
    ensures Value(Digits(n)) == n && forall i :: 0 <= i < |Digits(n)| ==> '0' <= Digits(n)[i] <= '9'
  {
    var s := Digits(n);
    assert s[|s| - 1] == DIGITS[n % 10];
    assert DIGITS[n % 10] as int == '0' as int + n % 10;
    if n >= 10 {
      DigitsValue(n / 10);
      assert s[..|s| - 1] == Digits(n / 10);
    } else {
      assert s[..0] == "";
    }
  }

  /** The rendering is the number's digits, behind a minus sign if it is negative. */
  lemma DecimalValue(n: int)
    ensures n >= 0 ==> Decimal(n)[0] != '-' && Value(Decimal(n)) == n
    ensures n < 0 ==> Decimal(n)[0] == '-' && Value(Decimal(n)[1..]) == -n
  {
    DigitsValue(if n < 0 then -n else n);
    assert n < 0 ==> Decimal(n)[1..] == Digits(-n);
  }

  lemma DecimalInjective(a: int, b: int)
    requires Decimal(a) == Decimal(b)
    ensures a == b
  {
    DecimalValue(a);
    DecimalValue(b);
    hide Decimal, Value;
  }
}
