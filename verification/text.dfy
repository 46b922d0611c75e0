/** String helpers with the semantics of the JavaScript built-ins the source relies on. */
module Text {

  predicate StartsWith(s: string, p: string) {
    |p| <= |s| && s[..|p|] == p
  }

  predicate EndsWith(s: string, p: string) {
    |p| <= |s| && s[|s| - |p|..] == p
  }

  /** True when `p` occurs in `s` starting at index `i`. */
  predicate OccursAt(s: string, p: string, i: int) {
    0 <= i && i + |p| <= |s| && s[i..i + |p|] == p
  }

  /** The characters a JavaScript regular expression's `.` refuses and `$` (multiline) stops at. */
  predicate IsLineTerminator(c: char) {
    c == '\n' || c == '\r' || c == '\U{2028}' || c == '\U{2029}'
  }

  /** The characters of the JavaScript class `\s`. */
  predicate IsSpace(c: char) {
    || c == ' ' || c == '\t' || c == '\U{000B}' || c == '\U{000C}' || IsLineTerminator(c)
    || c == '\U{00A0}' || c == '\U{1680}' || ('\U{2000}' <= c <= '\U{200A}')
    || c == '\U{202F}' || c == '\U{205F}' || c == '\U{3000}' || c == '\U{FEFF}'
  }

  /** The characters of the JavaScript class `\w`. */
  predicate IsWordChar(c: char) {
    ('a' <= c <= 'z') || ('A' <= c <= 'Z') || ('0' <= c <= '9') || c == '_'
  }

  predicate IsDigit(c: char) {
    '0' <= c <= '9'
  }

  predicate NoLineTerminator(s: string) {
    forall i :: 0 <= i < |s| ==> !IsLineTerminator(s[i])
  }

  function UpperAscii(c: char): char {
    if 'a' <= c <= 'z' then (c as int - 32) as char else c
  }

  function LowerAscii(c: char): char {
    if 'A' <= c <= 'Z' then (c as int + 32) as char else c
  }

  function LowerAsciiString(s: string): (r: string)
    ensures |r| == |s|
    ensures forall i :: 0 <= i < |s| ==> r[i] == LowerAscii(s[i])
  {
    seq(|s|, i requires 0 <= i < |s| => LowerAscii(s[i]))
  }

  /** Index of the first occurrence of `p` in `s` at or after `from`, if any. */
  function FindFrom(s: string, p: string, from: nat): (r: int)
    requires from <= |s|
    ensures r == -1 || (from <= r && OccursAt(s, p, r))
    ensures r == -1 ==> forall j :: from <= j <= |s| ==> !OccursAt(s, p, j)
    ensures r != -1 ==> forall j :: from <= j < r ==> !OccursAt(s, p, j)
    decreases |s| - from
  {
    if OccursAt(s, p, from) then from
    else if from == |s| then -1
    else FindFrom(s, p, from + 1)
  }

  /** Index of the last occurrence of `p` in `s` at or before `upTo`, if any. */
  function FindLast(s: string, p: string, upTo: int): (r: int)
    requires upTo <= |s|
    ensures r == -1 || (r <= upTo && OccursAt(s, p, r))
    ensures r == -1 ==> forall j :: 0 <= j <= upTo ==> !OccursAt(s, p, j)
    ensures r != -1 ==> forall j :: r < j <= upTo ==> !OccursAt(s, p, j)
    decreases upTo + 1
  {
    if upTo < 0 then -1
    else if OccursAt(s, p, upTo) then upTo
    else FindLast(s, p, upTo - 1)
  }

  /** The last index in `[lo, hi]` satisfying `P`, or -1. */
  function LastWhere(P: int -> bool, lo: nat, hi: int): (r: int)
    ensures r == -1 || (lo <= r <= hi && P(r))
    ensures forall j :: lo <= j <= hi && r < j ==> !P(j)
    decreases hi - lo + 1
  {
    if hi < lo then -1
    else if P(hi) then hi
    else LastWhere(P, lo, hi - 1)
  }

  /** `String.prototype.replace` with a string pattern: only the first occurrence is replaced. */
  function ReplaceFirst(s: string, p: string, rep: string): (r: string)
    ensures (forall j :: 0 <= j <= |s| ==> !OccursAt(s, p, j)) ==> r == s
    ensures forall i :: 0 <= i <= |s| && OccursAt(s, p, i) && (forall j :: 0 <= j < i ==> !OccursAt(s, p, j))
                        ==> r == s[..i] + rep + s[i + |p|..]
  {
    var i := FindFrom(s, p, 0);
    if i == -1 then s
    else
      s[..i] + rep + s[i + |p|..]
  }

  /** A pattern the text starts with is the occurrence `replace` cuts. */
  lemma ReplaceFirstAtStart(s: string, p: string, rep: string)
    requires StartsWith(s, p)
    ensures ReplaceFirst(s, p, rep) == rep + s[|p|..]
  {
    assert OccursAt(s, p, 0);
    assert FindFrom(s, p, 0) == 0;
    assert s[..0] + rep + s[|p|..] == rep + s[|p|..];
  }

  /** Length of the longest prefix of `s[from..]` whose characters satisfy `P`. */
  function SpanFrom(s: string, from: nat, P: char -> bool): (n: nat)
    requires from <= |s|
    ensures from + n <= |s|
    ensures forall i :: from <= i < from + n ==> P(s[i])
    ensures from + n == |s| || !P(s[from + n])
    decreases |s| - from
  {
    if from < |s| && P(s[from]) then 1 + SpanFrom(s, from + 1, P) else 0
  }

  /** `parts.join(sep)`. */
  function Join(parts: seq<string>, sep: string): string {
    if |parts| == 0 then ""
    else if |parts| == 1 then parts[0]
    else parts[0] + sep + Join(parts[1..], sep)
  }

  /** The text before the first `c`, or the whole string: `s.split(c)[0]`. */
  function BeforeFirst(s: string, c: char): (r: string)
    ensures StartsWith(s, r)
    ensures forall i :: 0 <= i < |r| ==> r[i] != c
    ensures |r| < |s| ==> s[|r|] == c
  {
    if |s| == 0 then ""
    else if s[0] == c then ""
    else [s[0]] + BeforeFirst(s[1..], c)
  }

  /** Decimal text of an integer, as `String(n)` prints it. */
  function IntToString(n: int): (r: string)
    ensures |r| > 0
    decreases if n < 0 then 1 - n else n
  {
    if n < 0 then "-" + NatToString(-n) else NatToString(n)
  }

  function NatToString(n: nat): (r: string)
    ensures |r| > 0
    ensures forall i :: 0 <= i < |r| ==> IsDigit(r[i])
  {
    if n < 10 then [DigitChar(n)] else NatToString(n / 10) + [DigitChar(n % 10)]
  }

  function DigitChar(d: nat): (c: char)
    requires d < 10
    ensures IsDigit(c)
  {
    ('0' as int + d) as char
  }

  function DigitsValue(s: string): nat
    requires forall i :: 0 <= i < |s| ==> IsDigit(s[i])
  {
    if |s| == 0 then 0
    else
      assert IsDigit(s[|s| - 1]);
      DigitsValue(s[..|s| - 1]) * 10 + (s[|s| - 1] as int - '0' as int)
  }
}
