/**
 * The few Python value and string semantics the bots rely on: optional values,
 * truthiness, `str()` of a dictionary value, `str.strip()`, ASCII `str.lower()`,
 * slicing `s[:n]`, `startswith`/`endswith`, `sep.join(parts)` and the decimal
 * rendering of an `int`.
 */
module PyText {

  datatype Option<+T> = None | Some(value: T)

  /** A value stored under a key of one of the bots' dictionaries: `None`, an `int` or a `str`. */
  datatype Value = Null | Int(i: int) | Str(s: string)

  /** Python truthiness of a dictionary value: `None`, `0` and `""` are false. */
  predicate Truthy(v: Value) {
    match v
    case Null => false
    case Int(i) => i != 0
    case Str(s) => s != ""
  }

  /** Truthiness of an optional string attribute (`None` and `""` are false). */
  predicate Present(o: Option<string>) {
    o.Some? && o.value != ""
  }

  /** `x or ""` for an optional string. */
  function OrEmpty(o: Option<string>): string {
    if o.Some? then o.value else ""
  }

  /** An optional string stored as a dictionary value. */
  function ValueOf(o: Option<string>): Value {
    if o.Some? then Str(o.value) else Null
  }

  /** Python's `str(v)`, which is what an f-string interpolation produces. */
  function Render(v: Value): (r: string)
    ensures Truthy(v) ==> r != ""
    ensures v.Str? ==> r == v.s
  {
    match v
    case Null => "None"
    case Int(i) => IntToDecimal(i)
    case Str(s) => s
  }

  /** `f"{x}"` for an optional string: `None` renders as the word "None". */
  function RenderOpt(o: Option<string>): string {
    Render(ValueOf(o))
  }

  // ---------------------------------------------------------------------------
  // Decimal rendering of integers, with the parser that inverts it.

  predicate IsDigit(c: char) {
    '0' <= c <= '9'
  }

  predicate AllDigits(s: string) {
    forall i | 0 <= i < |s| :: IsDigit(s[i])
  }

  function DigitChar(d: nat): (c: char)
    requires d < 10
    ensures IsDigit(c) && c as int - '0' as int == d
  {
    (d + '0' as int) as char
  }

  function NatToDecimal(n: nat): (r: string)
    ensures r != [] && AllDigits(r)
    decreases n
  {
    if n < 10 then [DigitChar(n)] else NatToDecimal(n / 10) + [DigitChar(n % 10)]
  }

  /** `str(i)` for a Python `int`. */
  function IntToDecimal(i: int): (r: string)
    ensures r != []
    ensures r[0] == '-' <==> i < 0
  {
    if i < 0 then "-" + NatToDecimal(-i) else NatToDecimal(i)
  }

  function ParseDigits(s: string): nat
    requires AllDigits(s)
    decreases |s|
  {
    if s == [] then 0 else ParseDigits(s[..|s| - 1]) * 10 + (s[|s| - 1] as int - '0' as int)
  }

  /** Python's `int(s)` restricted to an optional minus sign followed by decimal digits. */
  function ParseInt(s: string): Option<int> {
    if |s| > 1 && s[0] == '-' && AllDigits(s[1..]) then Some(0 - ParseDigits(s[1..]) as int)
    else if s != [] && AllDigits(s) then Some(ParseDigits(s))
    else None
  }

  lemma {:induction false} ParseNatToDecimal(n: nat)
    ensures ParseDigits(NatToDecimal(n)) == n
    decreases n
  {
    var r := NatToDecimal(n);
    if n >= 10 {
      ParseNatToDecimal(n / 10);
      assert r[..|r| - 1] == NatToDecimal(n / 10);
    }
  }

  /** Rendering an integer and reading it back gives the integer again. */
  lemma IntToDecimalRoundTrip(i: int)
    ensures ParseInt(IntToDecimal(i)) == Some(i)
  {
    if i < 0 {
      ParseNatToDecimal(-i);
      assert IntToDecimal(i)[1..] == NatToDecimal(-i);
    } else {
      ParseNatToDecimal(i);
    }
  }

  /** Distinct integers render differently. */
  lemma IntToDecimalInjective(a: int, b: int)
    requires IntToDecimal(a) == IntToDecimal(b)
    ensures a == b
  {
    IntToDecimalRoundTrip(a);
    IntToDecimalRoundTrip(b);
  }

  // ---------------------------------------------------------------------------
  // str.strip(), str.lower(), slicing, prefixes and suffixes, join.

  /** The characters Python's `str.isspace()` accepts, which `str.strip()` removes. */
  predicate IsSpace(c: char) {
    || c == ' ' || c == '\t' || c == '\n' || c == '\r'
    || ('\U{0B}' <= c <= '\U{0C}')
    || ('\U{1C}' <= c <= '\U{1F}')
    || c == '\U{85}' || c == '\U{A0}' || c == '\U{1680}'
    || ('\U{2000}' <= c <= '\U{200A}')
    || c == '\U{2028}' || c == '\U{2029}' || c == '\U{202F}' || c == '\U{205F}' || c == '\U{3000}'
  }

  function TrimStart(s: string): (r: string)
    ensures |r| <= |s| && r == s[|s| - |r|..]
    ensures r == [] || !IsSpace(r[0])
    ensures forall i | 0 <= i < |s| - |r| :: IsSpace(s[i])
    decreases |s|
  {
    if s != [] && IsSpace(s[0]) then TrimStart(s[1..]) else s
  }

  function TrimEnd(s: string): (r: string)
    ensures |r| <= |s| && r == s[..|r|]
    ensures r == [] || !IsSpace(r[|r| - 1])
    ensures forall i | |r| <= i < |s| :: IsSpace(s[i])
    decreases |s|
  {
    if s != [] && IsSpace(s[|s| - 1]) then TrimEnd(s[..|s| - 1]) else s
  }

  /** `s.strip()`: drops the leading and trailing whitespace and nothing else. */
  function Strip(s: string): (r: string)
    ensures r == [] || (!IsSpace(r[0]) && !IsSpace(r[|r| - 1]))
    ensures exists i, j :: 0 <= i <= j <= |s| && r == s[i..j] && SpacesOutside(s, i, j)
  {
    var t := TrimStart(s);
    var r := TrimEnd(t);
    TrimSlice(s, t, r);
    r
  }

  /** The part `t` keeps of `s`, trimmed again at its end, is a slice of `s` with spaces outside it. */
  lemma TrimSlice(s: string, t: string, r: string)
    requires |t| <= |s| && t == s[|s| - |t|..] && forall k | 0 <= k < |s| - |t| :: IsSpace(s[k])
    requires |r| <= |t| && r == t[..|r|] && forall k | |r| <= k < |t| :: IsSpace(t[k])
    ensures r == s[|s| - |t|..|s| - |t| + |r|] && SpacesOutside(s, |s| - |t|, |s| - |t| + |r|)
  {
    var i := |s| - |t|;
    forall k | i + |r| <= k < |s| ensures IsSpace(s[k]) {
      assert s[k] == t[k - i];
    }
  }

  /** Everything before index `i` and from index `j` on is whitespace. */
  predicate SpacesOutside(s: string, i: nat, j: nat)
    requires i <= j <= |s|
  {
    (forall k | 0 <= k < i :: IsSpace(s[k])) && (forall k | j <= k < |s| :: IsSpace(s[k]))
  }

  /** `s` has no whitespace at either end, so `s.strip() == s`. */
  predicate Stripped(s: string) {
    s == [] || (!IsSpace(s[0]) && !IsSpace(s[|s| - 1]))
  }

  lemma StripOfStripped(s: string)
    requires Stripped(s)
    ensures Strip(s) == s
  {
  }

  lemma {:induction false} TrimEndDropsSpaces(s: string, tail: string)
    requires Stripped(s)
    requires forall i | 0 <= i < |tail| :: IsSpace(tail[i])
    ensures TrimEnd(s + tail) == s
    decreases |tail|
  {
    if tail != [] {
      assert (s + tail)[..|s + tail| - 1] == s + tail[..|tail| - 1];
      TrimEndDropsSpaces(s, tail[..|tail| - 1]);
    }
  }

  lemma {:induction false} TrimStartDropsSpaces(head: string, s: string)
    requires Stripped(s)
    requires forall i | 0 <= i < |head| :: IsSpace(head[i])
    ensures TrimStart(head + s) == s
    decreases |head|
  {
    if head != [] {
      assert (head + s)[1..] == head[1..] + s;
      TrimStartDropsSpaces(head[1..], s);
    }
  }

  function LowerChar(c: char): char {
    if 'A' <= c <= 'Z' then (c as int + 32) as char else c
  }

  /** `s.lower()` for the ASCII letters. */
  function Lower(s: string): (r: string)
    ensures |r| == |s|
    ensures forall i | 0 <= i < |s| :: r[i] == LowerChar(s[i])
  {
    seq(|s|, i requires 0 <= i < |s| => LowerChar(s[i]))
  }

  predicate StartsWith(s: string, prefix: string) {
    |prefix| <= |s| && s[..|prefix|] == prefix
  }

  predicate EndsWith(s: string, suffix: string) {
    |suffix| <= |s| && s[|s| - |suffix|..] == suffix
  }

  lemma StartsWithHead(a: string, b: string, c: string)
    ensures StartsWith(a + b + c, a)
  {
    assert (a + b + c)[..|a|] == a;
  }

  lemma EndsWithTail(head: string, tail: string)
    ensures EndsWith(head + tail, tail)
  {
    assert (head + tail)[|head|..] == tail;
  }

  /** A string ending in `a + b + c` after some head, regrouped. */
  lemma EndsWithLastThree(head: string, a: string, b: string, c: string)
    ensures EndsWith(head + a + b + c, a + b + c)
  {
    assert head + a + b + c == head + (a + b + c);
    EndsWithTail(head, a + b + c);
  }

  /** `s[:n]`: the first `n` characters, or all of `s` when it is shorter. */
  function Prefix(s: string, n: nat): (r: string)
    ensures |r| == if |s| < n then |s| else n
    ensures StartsWith(s, r)
  {
    if |s| <= n then s else s[..n]
  }

  /** `sep.join(parts)`. */
  function Join(sep: string, parts: seq<string>): string
    decreases |parts|
  {
    if parts == [] then ""
    else if |parts| == 1 then parts[0]
    else parts[0] + sep + Join(sep, parts[1..])
  }
}
