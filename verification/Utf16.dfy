/**
 UTF-16 code units (RFC 2781 section 2.1). The panel takes text back with
 String.prototype.slice, which counts these units, not characters.
 */
module Utf16 {

  function EncodeChar(c: char): (u: seq<nat>)
    ensures 1 <= |u| <= 2
  {
    var v := c as int;
    if v < 0x1_0000 then [v]
    else [0xD800 + (v - 0x1_0000) / 0x400, 0xDC00 + (v - 0x1_0000) % 0x400]
  }

  /** The units of the first n characters of s. */
  function EncodeTo(s: string, n: nat): (u: seq<nat>)
    requires n <= |s|
  {
    if n == 0 then [] else EncodeTo(s, n - 1) + EncodeChar(s[n - 1])
  }

  function Encode(s: string): (u: seq<nat>) {
    EncodeTo(s, |s|)
  }

  lemma {:induction false} EncodeToConcat(a: string, b: string, n: nat)
    requires n <= |b|
    ensures EncodeTo(a + b, |a| + n) == Encode(a) + EncodeTo(b, n)
  {
    if n == 0 {
      EncodeToPrefix(a, b, |a|);
    } else {
      EncodeToConcat(a, b, n - 1);
    }
  }

  lemma {:induction false} EncodeToPrefix(a: string, b: string, n: nat)
    requires n <= |a|
    ensures EncodeTo(a + b, n) == EncodeTo(a, n)
  {
    if n > 0 {
      EncodeToPrefix(a, b, n - 1);
    }
  }

  lemma EncodeConcat(a: string, b: string)
    ensures Encode(a + b) == Encode(a) + Encode(b)
  {
    EncodeToConcat(a, b, |b|);
  }

  lemma NonEmpty(s: string)
    ensures Encode(s) == [] <==> s == ""
  {
  }

  /** What a reader of the screen sees; a lone or malformed unit ends the text. */
  function Decode(u: seq<nat>): (s: string)
  {
    if u == [] then ""
    else if u[0] < 0xD800 || 0xE000 <= u[0] < 0x1_0000 then [u[0] as char] + Decode(u[1..])
    else if |u| >= 2 && u[0] < 0xDC00 && 0xDC00 <= u[1] < 0xE000 then
      [(0x1_0000 + (u[0] - 0xD800) * 0x400 + (u[1] - 0xDC00)) as char] + Decode(u[2..])
    else ""
  }

  /** The code units determine the text, so equal screens show equal text. */
  lemma {:induction false} DecodeEncode(s: string)
    ensures Decode(Encode(s)) == s
  {
    hide EncodeChar, EncodeTo;
    if s == "" {
      EmptyIsNothing();
    } else {
      var c, rest := s[0], s[1..];
      DecodeEncode(rest);
      EncodeConcat([c], rest);
      assert s == [c] + rest;
      EncodeOne(c);
      DecodeOne(c, Encode(rest));
    }
  }

  lemma EmptyIsNothing()
    ensures Encode("") == []
  {
  }

  lemma EncodeOne(c: char)
    ensures Encode([c]) == EncodeChar(c)
  {
    assert EncodeTo([c], 1) == EncodeTo([c], 0) + EncodeChar(c);
  }

  lemma DecodeOne(c: char, more: seq<nat>)
    ensures Decode(EncodeChar(c) + more) == [c] + Decode(more)
  {
    var u := EncodeChar(c) + more;
    assert u[|EncodeChar(c)|..] == more;
    var v := c as int;
    if v >= 0x1_0000 {
      assert v - 0x1_0000 == (v - 0x1_0000) / 0x400 * 0x400 + (v - 0x1_0000) % 0x400;
    }
  }
}
