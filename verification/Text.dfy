/**
 String searching and trimming, as Go's strings package defines them. A string is
 a sequence of Unicode scalar values; the chunks and logs modelled here arrive as
 valid UTF-8, so no half character is ever searched.
 */
module Text {

  /** sub occurs in s at i. */
  predicate OccursAt(s: string, sub: string, i: int) {
    0 <= i && i + |sub| <= |s| && s[i..i + |sub|] == sub
  }

  /** strings.Index(s[from:], sub), as an offset into s: the first occurrence of sub
      at or after from, or -1. */
  function Index(s: string, sub: string, from: nat): (r: int)
    requires from <= |s|
    ensures r < 0 ==> r == -1 && forall i :: from <= i ==> !OccursAt(s, sub, i)
    ensures r >= 0 ==> from <= r && OccursAt(s, sub, r)
    ensures r >= 0 ==> forall i :: from <= i < r ==> !OccursAt(s, sub, i)
    decreases |s| - from
  {
    if OccursAt(s, sub, from) then from
    else if from == |s| then -1
    else Index(s, sub, from + 1)
  }

  predicate IsSpace(c: char) {
    c == ' ' || c == '\t' || c == '\r' || c == '\n'
  }

  /** The first position at or after from that holds no space. */
  function SkipSpace(s: string, from: nat): (n: nat)
    requires from <= |s|
    ensures from <= n <= |s|
    ensures n < |s| ==> !IsSpace(s[n])
    ensures forall i :: from <= i < n ==> IsSpace(s[i])
    decreases |s| - from
  {
    if from < |s| && IsSpace(s[from]) then SkipSpace(s, from + 1) else from
  }

  /** strings.TrimLeft(s, " \t\r\n"). */
  function TrimLeft(s: string): (t: string) {
    s[SkipSpace(s, 0)..]
  }

  /** Trimming commutes with appending: leading space can be dropped piece by piece. */
  lemma TrimLeftConcat(a: string, b: string)
    ensures TrimLeft(a + b) == if TrimLeft(a) == "" then TrimLeft(b) else TrimLeft(a) + b
  {
    hide IsSpace;
    var s, n, m := a + b, SkipSpace(a, 0), SkipSpace(b, 0);
    assert forall i :: 0 <= i < |b| ==> s[|a| + i] == b[i];
    assert forall i :: 0 <= i < |a| ==> s[i] == a[i];
    if n < |a| {
      assert !IsSpace(s[n]);
      assert SkipSpace(s, 0) == n;
      assert s[n..] == a[n..] + b;
    } else {
      assert m < |b| ==> !IsSpace(s[|a| + m]);
      assert forall i :: |a| <= i < |a| + m ==> s[i] == b[i - |a|];
      assert SkipSpace(s, 0) == |a| + m;
      assert s[|a| + m..] == b[m..];
    }
  }

  /** What is trimmed is white space, and what is left starts with none. */
  lemma TrimLeftIs(s: string)
    ensures var t := TrimLeft(s);
      && |t| <= |s| && s[|s| - |t|..] == t && (t != "" ==> t[0] !in {' ', '\t', '\r', '\n'})
      && forall i :: 0 <= i < |s| - |t| ==> s[i] in {' ', '\t', '\r', '\n'}
  {
  }

  /** The end of s before the copies of c that finish s[..to]. */
  function SkipBack(s: string, c: char, to: nat): (n: nat)
    requires to <= |s|
    ensures n <= to
    ensures forall i :: n <= i < to ==> s[i] == c
    ensures n > 0 ==> s[n - 1] != c
  {
    if to > 0 && s[to - 1] == c then SkipBack(s, c, to - 1) else to
  }

  /** strings.TrimRight(s, c) for one character. */
  function TrimRight(s: string, c: char): (t: string)
    ensures t <= s
  {
    s[..SkipBack(s, c, |s|)]
  }

  lemma TrimRightAfter(p: string, s: string, c: char)
    requires p != "" ==> p[|p| - 1] != c
    ensures TrimRight(p + s, c) == p + TrimRight(s, c)
  {
    var n := SkipBack(s, c, |s|);
    assert forall i :: |p| + n <= i < |p + s| ==> (p + s)[i] == s[i - |p|];
    assert |p| + n > 0 ==> (p + s)[|p| + n - 1] == if n == 0 then p[|p| - 1] else s[n - 1];
    assert SkipBack(p + s, c, |p + s|) == |p| + n;
    assert (p + s)[..|p| + n] == p + s[..n];
  }

  predicate HasPrefix(s: string, p: string) {
    p <= s
  }

  function Digit(d: nat): char
    requires d < 10
  {
    "0123456789"[d]
  }

  /** fmt's %d for a natural number. */
  function Decimal(n: nat): (s: string)
    ensures s != ""
    ensures forall i :: 0 <= i < |s| ==> '0' <= s[i] <= '9'
  {
    if n < 10 then [Digit(n)] else Decimal(n / 10) + [Digit(n % 10)]
  }

  /** The number a text of decimal digits stands for. */
  function NumberOf(s: string): int {
    if s == "" then 0 else 10 * NumberOf(s[..|s| - 1]) + (s[|s| - 1] as int - '0' as int)
  }

  /** A printed number reads as itself, without leading zeros. */
  lemma {:induction false} DecimalReads(n: nat)
    ensures NumberOf(Decimal(n)) == n && (n >= 10 ==> Decimal(n)[0] != '0')
  {
    var s := Decimal(n);
    if n >= 10 {
      DecimalReads(n / 10);
      assert s[..|s| - 1] == Decimal(n / 10) && s[0] == Decimal(n / 10)[0];
      if n / 10 < 10 {
        assert Decimal(n / 10) == [Digit(n / 10)];
      }
    } else {
      assert s[..0] == "";
    }
  }
}
