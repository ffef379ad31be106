/**
 UTF-8 (RFC 3629 sections 3 and 4), and the three questions Go's unicode/utf8
 package answers about it: RuneStart, FullRune and Valid.
 */
module Utf8 {

  type Byte = b: int | 0 <= b < 0x100

  predicate Between(lo: int, b: int, hi: int) {
    lo <= b <= hi
  }

  /** The length a leading byte announces, or 0 for a byte that can lead no character. */
  function Width(b: Byte): nat {
    if b < 0x80 then 1
    else if Between(0xC2, b, 0xDF) then 2
    else if Between(0xE0, b, 0xEF) then 3
    else if Between(0xF0, b, 0xF4) then 4
    else 0
  }

  /** The second byte's range depends on the first: no overlong forms, no surrogates,
      nothing above U+10FFFF. */
  predicate SecondByte(first: Byte, b: Byte) {
    Between(if first == 0xE0 then 0xA0 else if first == 0xF0 then 0x90 else 0x80, b,
            if first == 0xED then 0x9F else if first == 0xF4 then 0x8F else 0xBF)
  }

  predicate RuneStart(b: Byte) {
    !Between(0x80, b, 0xBF)
  }

  /** The length of the character at the front of s, or 0 if there is none. */
  function FirstRune(s: seq<Byte>): (w: nat)
    ensures w <= |s| && w <= 4
    ensures w > 0 ==> w == Width(s[0]) && RuneStart(s[0])
    ensures forall k :: 1 <= k < w ==> !RuneStart(s[k])
  {
    if s == [] then 0
    else
      var w := Width(s[0]);
      if |s| >= w
        && (w >= 2 ==> SecondByte(s[0], s[1]))
        && (w >= 3 ==> !RuneStart(s[2]))
        && (w >= 4 ==> !RuneStart(s[3]))
      then w else 0
  }

  predicate Valid(s: seq<Byte>) {
    s == [] || (FirstRune(s) > 0 && Valid(s[FirstRune(s)..]))
  }

  /** utf8.FullRune: more bytes cannot change what s starts with. An invalid start is
      full, because it is read as one bad byte. */
  predicate FullRune(s: seq<Byte>) {
    if s == [] then false
    else if |s| >= Width(s[0]) then true
    else (|s| > 1 && !SecondByte(s[0], s[1])) || (|s| > 2 && RuneStart(s[2]))
  }

  /** It is false exactly for the proper prefixes of a character. */
  lemma FullIff(s: seq<Byte>)
    ensures FullRune(s) <==> s != [] && (FirstRune(s) > 0 || forall rest :: FirstRune(s + rest) == 0)
  {
    if s != [] {
      if !FullRune(s) {
        var rest := Completed(s);
      } else if FirstRune(s) == 0 {
        forall rest
          ensures FirstRune(s + rest) == 0
        {
          assert forall k :: 0 <= k < |s| ==> (s + rest)[k] == s[k];
        }
      }
    }
  }

  lemma Completed(s: seq<Byte>) returns (rest: seq<Byte>)
    requires s != [] && !FullRune(s)
    ensures FirstRune(s + rest) > 0
  {
    var second: Byte := if s[0] == 0xF4 || s[0] == 0xED then 0x80 else 0xBF;
    rest := [second, 0x80, 0x80][|s| - 1..];
    var whole := s + rest;
    assert forall k :: 0 <= k < |s| ==> whole[k] == s[k];
    assert forall k :: |s| <= k < 4 ==> whole[k] == [second, 0x80, 0x80][k - 1];
  }

  lemma FirstRuneOfConcat(a: seq<Byte>, b: seq<Byte>)
    requires FirstRune(a) > 0
    ensures FirstRune(a + b) == FirstRune(a)
    ensures (a + b)[FirstRune(a)..] == a[FirstRune(a)..] + b
  {
    assert forall k :: 0 <= k < |a| ==> (a + b)[k] == a[k];
  }

  lemma {:induction false} ValidConcat(a: seq<Byte>, b: seq<Byte>)
    requires Valid(a)
    ensures Valid(a + b) == Valid(b)
    decreases |a|
  {
    if a == [] {
      assert a + b == b;
    } else {
      FirstRuneOfConcat(a, b);
      ValidConcat(a[FirstRune(a)..], b);
    }
  }

  /** The last character that starts in front of n: it reaches at least to n, and valid
      text splits in front of it. */
  lemma {:induction false} LastRune(s: seq<Byte>, n: nat) returns (i: nat)
    requires Valid(s) && 0 < n <= |s|
    ensures i < n <= i + FirstRune(s[i..])
    ensures Valid(s[..i]) && Valid(s[i..])
    ensures RuneStart(s[i]) && forall k :: i < k < n ==> !RuneStart(s[k])
    decreases |s|
  {
    hide Valid, FirstRune, RuneStart;
    var w := FirstRune(s);
    HeadRune(s);
    if n <= w {
      i := 0;
      assert s[0..] == s;
    } else {
      var rest := s[w..];
      var j := LastRune(rest, n - w);
      i := w + j;
      WholeRune(s);
      ValidConcat(s[..w], rest[..j]);
      Shifted(s, w, j);
    }
  }

  lemma HeadRune(s: seq<Byte>)
    requires Valid(s) && s != []
    ensures FirstRune(s) > 0 && Valid(s[FirstRune(s)..]) && Valid(s[..0]) && RuneStart(s[0])
  {
  }

  lemma Shifted(s: seq<Byte>, w: nat, j: nat)
    requires w <= |s| && j <= |s| - w
    ensures s[w..][j..] == s[w + j..] && s[..w] + s[w..][..j] == s[..w + j]
    ensures forall k :: w <= k < |s| ==> s[k] == s[w..][k - w]
  {
  }

  lemma WholeRune(s: seq<Byte>)
    requires FirstRune(s) > 0
    ensures Valid(s[..FirstRune(s)])
  {
    var w, r := FirstRune(s), s[..FirstRune(s)];
    assert FirstRune(r) == w && r[w..] == [];
  }

  /** Valid text may be cut in front of any byte that starts a character. */
  lemma ValidSplit(s: seq<Byte>, n: nat)
    requires Valid(s) && n <= |s| && (n < |s| ==> RuneStart(s[n]))
    ensures Valid(s[..n]) && Valid(s[n..])
  {
    if n == |s| {
      assert s[..n] == s;
    } else {
      var i := LastRune(s, n + 1);
      assert i == n;
    }
  }

  /** b can be completed to valid text. */
  ghost predicate ValidPrefix(b: seq<Byte>) {
    exists rest :: Valid(b + rest)
  }

  lemma ValidPrefixShorter(a: seq<Byte>, b: seq<Byte>)
    requires ValidPrefix(a + b)
    ensures ValidPrefix(a)
    ensures Valid(a) ==> ValidPrefix(b)
  {
    var rest :| Valid(a + b + rest);
    assert a + b + rest == a + (b + rest);
    assert Valid(a + (b + rest));
    if Valid(a) {
      ValidConcat(a, b + rest);
    }
  }

  lemma ValidIsPrefix(a: seq<Byte>)
    requires Valid(a)
    ensures ValidPrefix(a)
  {
    assert a + [] == a;
  }

  // ---------------------------------------------------------------- code points

  /** Every code point but the surrogates. */
  type Scalar = p: int | 0 <= p < 0xD800 || 0xE000 <= p < 0x110000

  /** The shortest form of RFC 3629 section 3: six bits in each byte behind the first. */
  function EncodeRune(p: Scalar): (s: seq<Byte>)
    ensures 1 <= |s| <= 4
  {
    if p < 0x80 then [p]
    else if p < 0x800 then [0xC0 + p / 64, 0x80 + p % 64]
    else if p < 0x10000 then [0xE0 + p / 4096, 0x80 + p / 64 % 64, 0x80 + p % 64]
    else [0xF0 + p / 262144, 0x80 + p / 4096 % 64, 0x80 + p / 64 % 64, 0x80 + p % 64]
  }

  function EncodeRunes(ps: seq<Scalar>): seq<Byte> {
    if ps == [] then [] else EncodeRune(ps[0]) + EncodeRunes(ps[1..])
  }

  lemma EncodedIsRune(p: Scalar)
    ensures FirstRune(EncodeRune(p)) == |EncodeRune(p)|
  {
    if p >= 0x10000 {
      FourBytes(p);
    } else if p >= 0x800 {
      ThreeBytes(p);
    }
  }

  lemma ThreeBytes(p: Scalar)
    requires 0x800 <= p < 0x10000
    ensures FirstRune(EncodeRune(p)) == 3
  {
    var q: int, m: int := p / 4096, p / 64 % 64;
    assert p == 4096 * q + 64 * m + p % 64;
    assert q < 16 && (q == 0 ==> m >= 32) && (q == 13 ==> m < 32);
    assert SecondByte(0xE0 + q, 0x80 + m);
  }

  lemma FourBytes(p: Scalar)
    requires 0x10000 <= p
    ensures FirstRune(EncodeRune(p)) == 4
  {
    var q: int, m: int := p / 262144, p / 4096 % 64;
    assert p == 262144 * q + 4096 * m + p % 4096;
    assert q < 5 && (q == 0 ==> m >= 16) && (q == 4 ==> m < 16);
    assert SecondByte(0xF0 + q, 0x80 + m);
  }

  /** What is taken for a character is the encoding of a code point. */
  lemma RuneIsEncoded(s: seq<Byte>) returns (p: Scalar)
    requires FirstRune(s) > 0
    ensures EncodeRune(p) == s[..FirstRune(s)]
  {
    var w := FirstRune(s);
    if w == 1 {
      p := OneIsEncoded(s);
    } else if w == 2 {
      p := TwoAreEncoded(s);
    } else if w == 3 {
      p := ThreeAreEncoded(s);
    } else {
      p := FourAreEncoded(s);
    }
  }

  lemma OneIsEncoded(s: seq<Byte>) returns (p: Scalar)
    requires FirstRune(s) == 1
    ensures EncodeRune(p) == s[..1]
  {
    p := s[0];
  }

  lemma TwoAreEncoded(s: seq<Byte>) returns (p: Scalar)
    requires FirstRune(s) == 2
    ensures EncodeRune(p) == s[..2]
  {
    var a: int, b: int := s[0] - 0xC0, s[1] - 0x80;
    p := a * 64 + b;
    assert p / 64 == a && p % 64 == b;
  }

  lemma ThreeAreEncoded(s: seq<Byte>) returns (p: Scalar)
    requires FirstRune(s) == 3
    ensures EncodeRune(p) == s[..3]
  {
    var a: int, b: int, c: int := s[0] - 0xE0, s[1] - 0x80, s[2] - 0x80;
    assert 0 <= a < 16 && 0 <= b < 64 && 0 <= c < 64;
    var q: int := a * 4096 + b * 64 + c;
    assert 0x800 <= q < 0xD800 || 0xE000 <= q < 0x10000;
    p := q;
    assert p / 4096 == a && p / 64 == a * 64 + b && p % 64 == c;
  }

  lemma FourAreEncoded(s: seq<Byte>) returns (p: Scalar)
    requires FirstRune(s) == 4
    ensures EncodeRune(p) == s[..4]
  {
    var a: int, b: int, c: int, d: int := s[0] - 0xF0, s[1] - 0x80, s[2] - 0x80, s[3] - 0x80;
    assert 0 <= a < 5 && 0 <= b < 64 && 0 <= c < 64 && 0 <= d < 64;
    assert (a == 0 ==> b >= 16) && (a == 4 ==> b < 16);
    p := FourDigits(a, b, c, d);
    assert s[..4] == [s[0], s[1], s[2], s[3]];
  }

  lemma FourDigits(a: int, b: int, c: int, d: int) returns (p: Scalar)
    requires 0 <= a < 5 && 0 <= b < 64 && 0 <= c < 64 && 0 <= d < 64
    requires (a == 0 ==> b >= 16) && (a == 4 ==> b < 16)
    ensures EncodeRune(p) == [0xF0 + a, 0x80 + b, 0x80 + c, 0x80 + d]
  {
    var q := a * 262144 + b * 4096 + c * 64 + d;
    assert 0x10000 <= q < 0x110000;
    p := q;
    SixBits(a * 4096 + b * 64 + c, d);
    SixBits(a * 64 + b, c);
    SixBits(a, b);
    assert p / 4096 == p / 64 / 64 && p / 262144 == p / 4096 / 64;
  }

  lemma SixBits(high: int, low: int)
    requires 0 <= low < 64
    ensures (high * 64 + low) / 64 == high && (high * 64 + low) % 64 == low
  {
  }

  /** The valid texts are the encodings of the sequences of code points. */
  lemma ValidIff(s: seq<Byte>)
    ensures Valid(s) <==> exists ps :: s == EncodeRunes(ps)
  {
    if Valid(s) {
      var ps := ReadAll(s);
    }
    forall ps | s == EncodeRunes(ps)
      ensures Valid(s)
    {
      EncodedAreValid(ps);
    }
  }

  lemma {:induction false} ReadAll(s: seq<Byte>) returns (ps: seq<Scalar>)
    requires Valid(s)
    ensures s == EncodeRunes(ps)
    decreases |s|
  {
    if s == [] {
      ps := [];
    } else {
      var w := FirstRune(s);
      var p := RuneIsEncoded(s);
      var qs := ReadAll(s[w..]);
      ps := [p] + qs;
      assert ps[1..] == qs && s == s[..w] + s[w..];
    }
  }

  lemma {:induction false} EncodedAreValid(ps: seq<Scalar>)
    ensures Valid(EncodeRunes(ps))
  {
    if ps != [] {
      var r := EncodeRune(ps[0]);
      EncodedIsRune(ps[0]);
      assert r[|r|..] == [];
      EncodedAreValid(ps[1..]);
      ValidConcat(r, EncodeRunes(ps[1..]));
    }
  }
}
