/** The string operations the core relies on: template interpolation of
    numbers and possibly-undefined values, `parseInt`, `join`, `startsWith`,
    `includes` and `split(sep)[1]`. */
module Text {
  import opened Common

  predicate IsDigit(c: char) {
    '0' <= c <= '9'
  }

  predicate AllDigits(s: string) {
    forall i :: 0 <= i < |s| ==> IsDigit(s[i])
  }

  function DigitChar(d: nat): (c: char)
    requires d < 10
    ensures IsDigit(c) && (c as int) - ('0' as int) == d
  {
    "0123456789"[d]
  }

  /** Decimal text of a natural number, as `${n}` renders it. */
  function NatToString(n: nat): (s: string)
    ensures |s| > 0 && AllDigits(s)
    ensures |s| > 1 ==> s[0] != '0'
  {
    if n < 10 then [DigitChar(n)] else NatToString(n / 10) + [DigitChar(n % 10)]
  }

  /** Decimal text of an integer, with a leading '-' when negative. */
  function IntToString(i: int): (s: string)
    ensures |s| > 0
    ensures i < 0 <==> s[0] == '-'
  {
    if i < 0 then "-" + NatToString(-i) else NatToString(i)
  }

  function BoolToString(b: bool): string {
    if b then "true" else "false"
  }

  /** `${v}` for a string that may be undefined. */
  function Show(v: Option<string>): string {
    match v
    case Some(s) => s
    case None => "undefined"
  }

  /** JavaScript truthiness of a string that may be undefined. */
  predicate Truthy(v: Option<string>) {
    v.Some? && v.value != ""
  }

  /** The value of a string of decimal digits. */
  function DigitsValue(s: string): nat
    requires AllDigits(s)
  {
    if s == [] then 0 else DigitsValue(s[..|s| - 1]) * 10 + ((s[|s| - 1] as int) - ('0' as int))
  }

  lemma {:induction false} DigitsValueOfNatToString(n: nat)
    ensures DigitsValue(NatToString(n)) == n
  {
    if n >= 10 {
      var s := NatToString(n);
      assert s[..|s| - 1] == NatToString(n / 10);
      DigitsValueOfNatToString(n / 10);
    }
  }

  /** Distinct numbers have distinct decimal texts. */
  lemma NatToStringInjective(m: nat, n: nat)
    requires NatToString(m) == NatToString(n)
    ensures m == n
  {
    DigitsValueOfNatToString(m);
    DigitsValueOfNatToString(n);
  }

  predicate IsSpace(c: char) {
    c == ' ' || c == '\t' || c == '\n' || c == '\r'
  }

  function TrimStart(s: string): (r: string)
    ensures |r| <= |s| && r == s[|s| - |r|..]
    ensures r == [] || !IsSpace(r[0])
  {
    if s != [] && IsSpace(s[0]) then TrimStart(s[1..]) else s
  }

  /** The longest prefix of `s` made of decimal digits. */
  function DigitPrefix(s: string): (d: string)
    ensures AllDigits(d) && d <= s
    ensures |d| < |s| ==> !IsDigit(s[|d|])
  {
    if s != [] && IsDigit(s[0]) then [s[0]] + DigitPrefix(s[1..]) else []
  }

  lemma {:induction false} DigitPrefixOfDigits(s: string)
    requires AllDigits(s)
    ensures DigitPrefix(s) == s
  {
    if s != [] {
      DigitPrefixOfDigits(s[1..]);
    }
  }

  /** The value of the leading run of decimal digits, `None` when there is
      none. */
  function ParseDigits(s: string): Option<int> {
    var digits := DigitPrefix(s);
    if digits == [] then None else Some(DigitsValue(digits))
  }

  /** An optional sign, then the digits. */
  function ParseSigned(t: string): Option<int> {
    if t != [] && t[0] == '-' then
      match ParseDigits(t[1..])
      case Some(m) => Some(-m)
      case None => None
    else if t != [] && t[0] == '+' then ParseDigits(t[1..])
    else ParseDigits(t)
  }

  /** `parseInt(s)` with the default radix: leading white space, an optional
      sign, then the longest run of decimal digits; `None` stands for NaN. */
  function ParseInt(s: string): Option<int> {
    ParseSigned(TrimStart(s))
  }

  /** What `${i}` renders, `parseInt` reads back. */
  lemma ParseIntOfIntToString(i: int)
    ensures ParseInt(IntToString(i)) == Some(i)
  {
    var s := IntToString(i);
    TrimStartUnspaced(s);
    if i < 0 {
      ParseDigitsOfNatToString(-i);
      assert s[1..] == NatToString(-i);
    } else {
      ParseDigitsOfNatToString(i);
    }
  }

  lemma ParseDigitsOfNatToString(n: nat)
    ensures ParseDigits(NatToString(n)) == Some(n)
  {
    DigitPrefixOfDigits(NatToString(n));
    DigitsValueOfNatToString(n);
  }

  lemma TrimStartUnspaced(s: string)
    requires s != [] && !IsSpace(s[0])
    ensures TrimStart(s) == s
  {
  }

  /** `parts.join(sep)`. */
  function Join(parts: seq<string>, sep: string): string {
    if parts == [] then ""
    else if |parts| == 1 then parts[0]
    else parts[0] + sep + Join(parts[1..], sep)
  }

  predicate StartsWith(s: string, prefix: string) {
    prefix <= s
  }

  predicate OccursAt(s: string, sub: string, i: nat) {
    i + |sub| <= |s| && s[i..i + |sub|] == sub
  }

  /** The first position at or after `from` where `sub` occurs in `s`. */
  function IndexOfFrom(s: string, sub: string, from: nat): (r: Option<nat>)
    requires from <= |s|
    ensures r.Some? ==> from <= r.value && OccursAt(s, sub, r.value)
    ensures r.Some? ==> forall j :: from <= j < r.value ==> !OccursAt(s, sub, j)
    ensures r.None? ==> forall j :: from <= j <= |s| ==> !OccursAt(s, sub, j)
    decreases |s| - from
  {
    if OccursAt(s, sub, from) then Some(from)
    else if from == |s| then None
    else IndexOfFrom(s, sub, from + 1)
  }

  function IndexOf(s: string, sub: string): Option<nat> {
    IndexOfFrom(s, sub, 0)
  }

  /** `s.includes(sub)`. */
  predicate Contains(s: string, sub: string) {
    IndexOf(s, sub).Some?
  }

  lemma ContainsAt(s: string, sub: string, i: nat)
    requires OccursAt(s, sub, i)
    ensures Contains(s, sub)
  {
  }

  /** A substring stays a substring behind any prefix. */
  lemma ContainsAfterPrefix(prefix: string, s: string, sub: string)
    requires Contains(s, sub)
    ensures Contains(prefix + s, sub)
  {
    var i := IndexOf(s, sub).value;
    var t := prefix + s;
    assert t[|prefix| + i..|prefix| + i + |sub|] == s[i..i + |sub|];
    ContainsAt(t, sub, |prefix| + i);
  }

  /** Every part of a join is a substring of it. */
  lemma {:induction false} JoinContainsParts(parts: seq<string>, sep: string, k: nat)
    requires k < |parts|
    ensures Contains(Join(parts, sep), parts[k])
  {
    var j := Join(parts, sep);
    if |parts| == 1 {
      assert OccursAt(j, parts[k], 0);
    } else if k == 0 {
      assert OccursAt(j, parts[0], 0);
    } else {
      JoinContainsParts(parts[1..], sep, k - 1);
      var rest := Join(parts[1..], sep);
      var i: nat := IndexOf(rest, parts[k]).value;
      var off := |parts[0] + sep|;
      assert j == parts[0] + sep + rest;
      assert j[off + i..off + i + |parts[k]|] == rest[i..i + |parts[k]|];
      assert OccursAt(j, parts[k], off + i);
    }
    ContainsAtIndex(j, parts[k]);
  }

  lemma ContainsAtIndex(s: string, sub: string)
    ensures Contains(s, sub) <==> exists i :: 0 <= i <= |s| && OccursAt(s, sub, i)
  {
    if exists i :: 0 <= i <= |s| && OccursAt(s, sub, i) {
      var i :| 0 <= i <= |s| && OccursAt(s, sub, i);
      assert IndexOf(s, sub).Some?;
    }
  }

  /** `s.split(sep)[1]`: the text between the first and the second occurrence
      of `sep` (or the end of `s`); undefined when `sep` does not occur. */
  function SecondSegment(s: string, sep: string): (r: Option<string>)
    requires |sep| > 0
    ensures r.None? <==> IndexOf(s, sep).None?
    ensures r.Some? ==> !Contains(r.value, sep)
    ensures r.Some? ==> r.value <= s[IndexOf(s, sep).value + |sep|..]
    ensures r.Some? ==> var rest := s[IndexOf(s, sep).value + |sep|..];
                        r.value == rest || OccursAt(rest, sep, |r.value|)
  {
    match IndexOf(s, sep)
    case None => None
    case Some(i) =>
      var rest := s[i + |sep|..];
      match IndexOf(rest, sep)
      case None => Some(rest)
      case Some(j) =>
        var seg := rest[..j];
        NoEarlierOccurrence(rest, sep, j);
        Some(seg)
  }

  lemma NoEarlierOccurrence(s: string, sep: string, j: nat)
    requires |sep| > 0
    requires j <= |s| && IndexOf(s, sep) == Some(j)
    ensures !Contains(s[..j], sep)
  {
    var p := s[..j];
    ContainsAtIndex(p, sep);
    if Contains(p, sep) {
      var i :| 0 <= i <= |p| && OccursAt(p, sep, i);
      assert p[i..i + |sep|] == s[i..i + |sep|];
      assert OccursAt(s, sep, i) && i < j;
      assert false;
    }
  }
}
