/**
 The base 64 encoding of RFC 4648 section 4, and its decoding as Go's
 encoding/base64 does it: carriage returns and line feeds are skipped, padding is
 required, and the unused bits of the last character are not looked at.
 */
module Base64 {
  import opened Options
  import opened Utf8

  type Sextet = n: int | 0 <= n < 64

  /** Table 1 of section 4. */
  function Symbol(n: Sextet): char {
    if n < 26 then 'A' + n as char
    else if n < 52 then 'a' + (n - 26) as char
    else if n < 62 then '0' + (n - 52) as char
    else if n == 62 then '+' else '/'
  }

  function Value(c: char): Option<Sextet> {
    if 'A' <= c <= 'Z' then Some((c - 'A') as int)
    else if 'a' <= c <= 'z' then Some((c - 'a') as int + 26)
    else if '0' <= c <= '9' then Some((c - '0') as int + 52)
    else if c == '+' then Some(62) else if c == '/' then Some(63) else None
  }

  lemma ValueOfSymbol(n: Sextet)
    ensures Value(Symbol(n)) == Some(n) && Symbol(n) !in "=\r\n"
  {
  }

  function First(a: Byte): Sextet { a / 4 }
  function Second(a: Byte, b: Byte): Sextet { (a % 4) * 16 + b / 16 }
  function Third(b: Byte, c: Byte): Sextet { (b % 16) * 4 + c / 64 }
  function Fourth(c: Byte): Sextet { c % 64 }

  function Encode(s: seq<Byte>): string {
    if s == [] then ""
    else if |s| == 1 then [Symbol(First(s[0])), Symbol(Second(s[0], 0)), '=', '=']
    else if |s| == 2 then [Symbol(First(s[0])), Symbol(Second(s[0], s[1])), Symbol(Third(s[1], 0)), '=']
    else [Symbol(First(s[0])), Symbol(Second(s[0], s[1])), Symbol(Third(s[1], s[2])), Symbol(Fourth(s[2]))] + Encode(s[3..])
  }

  function Clean(s: string): string {
    if s == "" then "" else (if s[0] in "\r\n" then "" else [s[0]]) + Clean(s[1..])
  }

  function Byte1(p: Sextet, q: Sextet): Byte { p * 4 + q / 16 }
  function Byte2(q: Sextet, r: Sextet): Byte { (q % 16) * 16 + r / 4 }
  function Byte3(r: Sextet, t: Sextet): Byte { (r % 4) * 64 + t }

  /** Quantum by quantum; padding only in the last. */
  function Quanta(s: string): Option<seq<Byte>> {
    if s == "" then Some([])
    else if |s| < 4 then None
    else
      var p, q, r, t := Value(s[0]), Value(s[1]), Value(s[2]), Value(s[3]);
      if p.None? || q.None? then None
      else if r.None? then
        if |s| == 4 && s[2] == '=' && s[3] == '=' then Some([Byte1(p.value, q.value)]) else None
      else if t.None? then
        if |s| == 4 && s[3] == '=' then Some([Byte1(p.value, q.value), Byte2(q.value, r.value)]) else None
      else
        var rest := Quanta(s[4..]);
        if rest.None? then None
        else Some([Byte1(p.value, q.value), Byte2(q.value, r.value), Byte3(r.value, t.value)] + rest.value)
  }

  function Decode(s: string): Option<seq<Byte>> { Quanta(Clean(s)) }

  lemma BytesBack(a: Byte, b: Byte, c: Byte)
    ensures Byte1(First(a), Second(a, b)) == a && Byte2(Second(a, b), Third(b, c)) == b && Byte3(Third(b, c), Fourth(c)) == c
  {
  }

  predicate NoBreaks(s: string) { forall i :: 0 <= i < |s| ==> s[i] !in "\r\n" }

  lemma {:induction false} CleanAlready(s: string)
    requires NoBreaks(s)
    ensures Clean(s) == s
  {
    if s != "" {
      CleanAlready(s[1..]);
      assert s == [s[0]] + s[1..];
    }
  }

  lemma {:induction false} EncodeHasNoBreaks(s: seq<Byte>)
    ensures NoBreaks(Encode(s))
  {
    hide Symbol, First, Second, Third, Fourth;
    forall n: Sextet ensures Symbol(n) !in "\r\n" {
      ValueOfSymbol(n);
    }
    if |s| >= 3 {
      EncodeHasNoBreaks(s[3..]);
    }
  }

  lemma {:induction false} QuantaBack(s: seq<Byte>)
    ensures Quanta(Encode(s)) == Some(s)
  {
    hide Symbol, Value, First, Second, Third, Fourth, Byte1, Byte2, Byte3;
    forall n: Sextet ensures Value(Symbol(n)) == Some(n) {
      ValueOfSymbol(n);
    }
    PadHasNoValue();
    if |s| == 1 {
      BytesBack(s[0], 0, 0);
      assert s == [s[0]];
    } else if |s| == 2 {
      BytesBack(s[0], s[1], 0);
      assert s == [s[0], s[1]];
    } else if |s| >= 3 {
      BytesBack(s[0], s[1], s[2]);
      QuantaBack(s[3..]);
      var e := Encode(s);
      assert e[4..] == Encode(s[3..]);
      assert s == [s[0], s[1], s[2]] + s[3..];
    }
  }

  lemma PadHasNoValue()
    ensures Value('=') == None
  {
  }

  /** Decoding gives back what was encoded, for every byte sequence. */
  lemma RoundTrip(s: seq<Byte>)
    ensures Decode(Encode(s)) == Some(s)
  {
    EncodeHasNoBreaks(s);
    CleanAlready(Encode(s));
    QuantaBack(s);
  }

  // ---- What is accepted ----

  predicate IsSymbol(c: char) { 'A' <= c <= 'Z' || 'a' <= c <= 'z' || '0' <= c <= '9' || c == '+' || c == '/' }

  /** Whole quanta of the alphabet, of which the last ends with `pad` padding characters. */
  predicate Padded(s: string, pad: nat) {
    && |s| % 4 == 0 && pad <= |s|
    && (forall i :: 0 <= i < |s| - pad ==> IsSymbol(s[i])) && (forall i :: |s| - pad <= i < |s| ==> s[i] == '=')
  }

  lemma SymbolsHaveValues(c: char)
    ensures Value(c).Some? <==> IsSymbol(c)
    ensures !IsSymbol('=')
  {
  }

  lemma {:induction false} QuantaIff(s: string)
    ensures Quanta(s).Some? <==> Padded(s, 0) || Padded(s, 1) || Padded(s, 2)
    ensures Quanta(s).Some? ==>
      |Quanta(s).value| == |s| / 4 * 3 - (if Padded(s, 0) then 0 else if Padded(s, 1) then 1 else 2)
  {
    hide Value, IsSymbol, Byte1, Byte2, Byte3;
    forall c ensures Value(c).Some? <==> IsSymbol(c) {
      SymbolsHaveValues(c);
    }
    SymbolsHaveValues('=');
    if |s| >= 4 {
      var t := s[4..];
      QuantaIff(t);
      assert forall i :: 0 <= i < |t| ==> t[i] == s[i + 4];
      assert forall i :: 4 <= i < |s| ==> s[i] == t[i - 4];
    }
  }

  /**
   * A text decodes if and only if, line breaks aside, it is whole quanta of the
   * alphabet with at most two padding characters, all at the end.
   */
  lemma DecodesIff(s: string)
    ensures Decode(s).Some? <==> Padded(Clean(s), 0) || Padded(Clean(s), 1) || Padded(Clean(s), 2)
  {
    hide Padded, Quanta, Clean;
    QuantaIff(Clean(s));
  }

  /** Line breaks change nothing, wherever they stand. */
  lemma {:induction false} BreaksAreSkipped(a: string, c: char, b: string)
    requires c == '\r' || c == '\n'
    ensures Decode(a + [c] + b) == Decode(a + b)
  {
    hide Quanta;
    CleanSkips(a, c, b);
  }

  lemma {:induction false} CleanSkips(a: string, c: char, b: string)
    requires c == '\r' || c == '\n'
    ensures Clean(a + [c] + b) == Clean(a + b)
    decreases |a|
  {
    if a == "" {
      assert a + [c] + b == [c] + b && ([c] + b)[1..] == b && a + b == b;
    } else {
      CleanSkips(a[1..], c, b);
      assert (a + [c] + b)[1..] == a[1..] + [c] + b && (a + b)[1..] == a[1..] + b;
    }
  }
}
