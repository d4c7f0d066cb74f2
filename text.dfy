/** Text helpers standing in for the parts of Go's `strings` and `strconv`
    packages that the serializer relies on: decimal formatting of integers,
    splitting on a separator, trimming white space and substring search. */
module Text {

  datatype Option<T> = None | Some(value: T)

  /** The decimal digit for 0 <= d < 10. */
  function Digit(d: nat): (c: char)
    requires d < 10
    ensures '0' <= c <= '9' && c as int - '0' as int == d
  {
    ['0', '1', '2', '3', '4', '5', '6', '7', '8', '9'][d]
  }

  predicate IsDigits(s: string) {
    forall i :: 0 <= i < |s| ==> '0' <= s[i] <= '9'
  }

  /** The digits of `n` in base 10, most significant first, no leading zero
      (strconv.FormatUint(n, 10)). */
  function NatToString(n: nat): (s: string)
    ensures |s| > 0 && IsDigits(s)
    ensures |s| > 1 ==> s[0] != '0'
    decreases n
  {
    if n < 10 then [Digit(n)] else NatToString(n / 10) + [Digit(n % 10)]
  }

  /** strconv.FormatInt(n, 10): a minus sign then the digits of |n|. */
  function IntToString(n: int): (s: string)
    ensures |s| > 0
    ensures n >= 0 ==> s == NatToString(n)
    ensures n < 0 ==> s[0] == '-' && s[1..] == NatToString(-n)
  {
    if n >= 0 then NatToString(n) else "-" + NatToString(-n)
  }

  /** The value of a string of decimal digits (the inverse of NatToString). */
  function DigitsValue(s: string): nat
    requires IsDigits(s)
  {
    if s == [] then 0 else DigitsValue(s[..|s| - 1]) * 10 + (s[|s| - 1] as int - '0' as int)
  }

  /** The value of what IntToString produces. */
  function DecimalValue(s: string): int
    requires |s| > 0
    requires s[0] == '-' ==> IsDigits(s[1..])
    requires s[0] != '-' ==> IsDigits(s)
  {
    if s[0] == '-' then -(DigitsValue(s[1..]) as int) else DigitsValue(s)
  }

  lemma {:induction false} NatToStringRoundTrip(n: nat)
    ensures DigitsValue(NatToString(n)) == n
    decreases n
  {
    if n >= 10 {
      var s := NatToString(n);
      assert s[..|s| - 1] == NatToString(n / 10);
      NatToStringRoundTrip(n / 10);
    }
  }

  /** Decimal formatting loses nothing: different integers print differently,
      so integer map keys never collide once formatted. */
  lemma IntToStringRoundTrip(n: int)
    ensures DecimalValue(IntToString(n)) == n
  {
    if n >= 0 {
      NatToStringRoundTrip(n);
    } else {
      NatToStringRoundTrip(-n);
    }
  }

  lemma IntToStringInjective(a: int, b: int)
    requires IntToString(a) == IntToString(b)
    ensures a == b
  {
    IntToStringRoundTrip(a);
    IntToStringRoundTrip(b);
  }

  /** sub occurs in s starting at position i. */
  predicate OccursAt(s: string, sub: string, i: int) {
    0 <= i <= |s| - |sub| && s[i..i + |sub|] == sub
  }

  /** s contains sub as a contiguous piece (strings.Contains). */
  predicate Contains(s: string, sub: string) {
    exists i | 0 <= i <= |s| - |sub| :: OccursAt(s, sub, i)
  }

  /** A string contains whatever it ends with. */
  lemma ContainsSuffix(prefix: string, suffix: string)
    ensures Contains(prefix + suffix, suffix)
  {
    assert OccursAt(prefix + suffix, suffix, |prefix|);
  }

  /** Joins parts with the separator between consecutive parts (strings.Join). */
  function Join(parts: seq<string>, sep: char): string
    requires |parts| > 0
  {
    if |parts| == 1 then parts[0] else parts[0] + [sep] + Join(parts[1..], sep)
  }

  /** strings.Split(s, sep) for a one-character separator: the pieces between
      separators, in order; the empty string yields one empty piece. */
  function Split(s: string, sep: char): (parts: seq<string>)
    ensures |parts| > 0
    ensures forall i, j :: 0 <= i < |parts| && 0 <= j < |parts[i]| ==> parts[i][j] != sep
    ensures Join(parts, sep) == s
    decreases |s|
  {
    SplitFrom(s, sep, 0)
  }

  /** Split of s, whose first piece is known to begin at position 0 and whose
      first k characters contain no separator. */
  function SplitFrom(s: string, sep: char, k: nat): (parts: seq<string>)
    requires k <= |s|
    requires forall j :: 0 <= j < k ==> s[j] != sep
    ensures |parts| > 0
    ensures forall i, j :: 0 <= i < |parts| && 0 <= j < |parts[i]| ==> parts[i][j] != sep
    ensures Join(parts, sep) == s
    decreases |s| - k
  {
    if k == |s| then [s]
    else if s[k] == sep then
      var rest := SplitFrom(s[k + 1..], sep, 0);
      assert s == s[..k] + [sep] + s[k + 1..];
      [s[..k]] + rest
    else SplitFrom(s, sep, k + 1)
  }

  /** The characters Go's unicode.IsSpace accepts. */
  predicate IsSpace(c: char) {
    c == ' ' || c == '\t' || c == '\n' || c == '\r' || c == '\U{000B}' || c == '\U{000C}'
    || c == '\U{0085}' || c == '\U{00A0}' || c == '\U{1680}'
    || ('\U{2000}' <= c <= '\U{200A}')
    || c == '\U{2028}' || c == '\U{2029}' || c == '\U{202F}' || c == '\U{205F}' || c == '\U{3000}'
  }

  function TrimLeft(s: string): (r: string)
    ensures |r| <= |s| && r == s[|s| - |r|..]
    ensures r == [] || !IsSpace(r[0])
    ensures forall i :: 0 <= i < |s| - |r| ==> IsSpace(s[i])
  {
    if s != [] && IsSpace(s[0]) then TrimLeft(s[1..]) else s
  }

  function TrimRight(s: string): (r: string)
    ensures |r| <= |s| && r == s[..|r|]
    ensures r == [] || !IsSpace(r[|r| - 1])
    ensures forall i :: |r| <= i < |s| ==> IsSpace(s[i])
  {
    if s != [] && IsSpace(s[|s| - 1]) then TrimRight(s[..|s| - 1]) else s
  }

  /** Neither end of s is a space. */
  predicate Trimmed(s: string) {
    s == [] || (!IsSpace(s[0]) && !IsSpace(s[|s| - 1]))
  }

  /** strings.TrimSpace: the longest infix of s that neither begins nor ends
      with white space, obtained by dropping leading and trailing white space. */
  function TrimSpace(s: string): (r: string)
    ensures exists a :: OccursAt(s, r, a)
    ensures Trimmed(r)
  {
    var l := TrimLeft(s);
    var r := TrimRight(l);
    assert OccursAt(s, r, |s| - |l|);
    r
  }
}
