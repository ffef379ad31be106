/**
 Finding tool calls written as text (internal/ai/agent.go): the string-aware brace
 scanner, and the tool name a model wrote in front of an object.
 */
module BraceScanner {

  /** The scanner's variables, and the spans found so far. */
  datatype Scan = Scan(depth: nat, start: int, inStr: bool, esc: bool, spans: seq<(int, int)>)

  const INITIAL := Scan(0, -1, false, false, [])

  /** One character c at offset i. */
  function Step(st: Scan, c: char, i: int): Scan {
    if st.inStr then
      if st.esc then st.(esc := false)
      else if c == '\\' then st.(esc := true)
      else if c == '"' then st.(inStr := false)
      else st
    else if c == '"' then st.(inStr := true)
    else if c == '{' then st.(start := if st.depth == 0 then i else st.start, depth := st.depth + 1)
    else if c == '}' && st.depth > 0 then
      if st.depth == 1 && st.start >= 0 then st.(depth := 0, start := -1, spans := st.spans + [(st.start, i + 1)])
      else st.(depth := st.depth - 1)
    else st
  }

  /** Scanning s, whose first character is at offset i. */
  function ScanFrom(st: Scan, s: string, i: int): Scan
    decreases |s|
  {
    if s == "" then st else ScanFrom(Step(st, s[0], i), s[1..], i + 1)
  }

  lemma {:induction false} ScanConcat(st: Scan, a: string, b: string, i: int)
    ensures ScanFrom(st, a + b, i) == ScanFrom(ScanFrom(st, a, i), b, i + |a|)
    decreases |a|
  {
    if a == "" {
      assert a + b == b;
    } else {
      assert (a + b)[1..] == a[1..] + b;
      ScanConcat(Step(st, a[0], i), a[1..], b, i + 1);
    }
  }

  lemma ScanOne(st: Scan, c: char, i: int)
    ensures ScanFrom(st, [c], i) == Step(st, c, i)
  {
    assert [c][1..] == "";
    assert ScanFrom(Step(st, c, i), "", i + 1) == Step(st, c, i);
  }

  // ---------------------------------------------------------------- what the spans are

  /** The scanner's state in front of offset i. */
  function Before(s: string, i: nat): Scan
    requires i <= |s|
  {
    if i == 0 then INITIAL else Step(Before(s, i - 1), s[i - 1], i - 1)
  }

  /** A top-level object starts at a and ends in front of b: a brace outside every string
      that takes the depth from 0, the first later brace that takes it back, and nothing
      of depth 0 between. */
  ghost predicate TopLevel(s: string, a: int, b: int) {
    && 0 <= a < b <= |s|
    && s[a] == '{' && !Before(s, a).inStr && Before(s, a).depth == 0
    && s[b - 1] == '}' && !Before(s, b - 1).inStr && Before(s, b - 1).depth == 1
    && (forall k :: a < k < b ==> Before(s, k).depth > 0)
  }

  /** The scanner keeps the spans that are complete, in order, and the open one's start. */
  ghost predicate Found(s: string, i: nat)
    requires i <= |s|
  {
    var st := Before(s, i);
    && (st.depth > 0 ==>
        && 0 <= st.start < i && s[st.start] == '{'
        && !Before(s, st.start).inStr && Before(s, st.start).depth == 0
        && (forall k :: st.start < k <= i ==> Before(s, k).depth > 0))
    && (forall j :: 0 <= j < |st.spans| ==> TopLevel(s, st.spans[j].0, st.spans[j].1) && st.spans[j].1 <= i)
    && (forall j, k :: 0 <= j < k < |st.spans| ==> st.spans[j].1 <= st.spans[k].0)
    && (st.depth > 0 ==> forall j :: 0 <= j < |st.spans| ==> st.spans[j].1 <= st.start)
    && (forall a, b :: TopLevel(s, a, b) && b <= i ==> (a, b) in st.spans)
  }

  predicate ClosesAt(s: string, i: nat)
    requires i < |s|
  {
    !Before(s, i).inStr && s[i] == '}' && Before(s, i).depth == 1
  }

  /** A span ends behind i exactly if its closing brace is there, and then it starts
      where the scanner says the open one does. */
  lemma ClosingSpan(s: string, i: nat, a: int)
    requires i < |s| && Found(s, i)
    ensures TopLevel(s, a, i + 1) <==> ClosesAt(s, i) && a == Before(s, i).start
  {
    var start := Before(s, i).start;
    if ClosesAt(s, i) {
      assert TopLevel(s, start, i + 1);
    }
  }

  lemma FoundStep(s: string, i: nat)
    requires i < |s| && Found(s, i)
    ensures Found(s, i + 1)
  {
    hide TopLevel, Before, Step;
    var st, nx := Before(s, i), Before(s, i + 1);
    BeforeNext(s, i);
    StepSpans(st, s[i], i);
    SpansStep(s, i, st.spans, nx.spans);
  }

  lemma BeforeNext(s: string, i: nat)
    requires i < |s|
    ensures Before(s, i + 1) == Step(Before(s, i), s[i], i)
  {
  }

  /** What one character does to the spans and to the open start. */
  lemma StepSpans(st: Scan, c: char, i: int)
    requires st.depth > 0 ==> st.start >= 0
    ensures var nx, closes := Step(st, c, i), !st.inStr && c == '}' && st.depth == 1;
      && nx.spans == (if closes then st.spans + [(st.start, i + 1)] else st.spans)
      && (nx.depth > 0 ==> nx.start == if st.depth == 0 then i else st.start)
      && (nx.depth > 0 && st.depth == 0 ==> c == '{' && !st.inStr)
      && (closes ==> nx.depth == 0)
  {
  }

  lemma SpansStep(s: string, i: nat, was: seq<(int, int)>, now: seq<(int, int)>)
    requires i < |s| && Found(s, i) && was == Before(s, i).spans
    requires now == if ClosesAt(s, i) then was + [(Before(s, i).start, i + 1)] else was
    ensures forall j :: 0 <= j < |now| ==> TopLevel(s, now[j].0, now[j].1) && now[j].1 <= i + 1
    ensures forall j, k :: 0 <= j < k < |now| ==> now[j].1 <= now[k].0
    ensures forall a, b :: TopLevel(s, a, b) && b <= i + 1 ==> (a, b) in now
  {
    hide TopLevel, Before;
    var start := Before(s, i).start;
    ClosingSpan(s, i, start);
    forall a, b | TopLevel(s, a, b) && b <= i + 1
      ensures (a, b) in now
    {
      ClosingSpan(s, i, a);
      assert b == i + 1 ==> now[|was|] == (a, b);
    }
  }

  /** The spans are exactly the top-level objects, disjoint and in order, on every input. */
  method JsonObjectSpans(s: string) returns (spans: seq<(int, int)>)
    ensures forall j :: 0 <= j < |spans| ==> TopLevel(s, spans[j].0, spans[j].1)
    ensures forall a, b :: TopLevel(s, a, b) ==> (a, b) in spans
    ensures forall j, k :: 0 <= j < k < |spans| ==> spans[j].1 <= spans[k].0
    ensures spans == ScanFrom(INITIAL, s, 0).spans
  {
    spans := [];
    var depth: nat, start, inStr, esc := 0, -1, false, false;
    for i := 0 to |s|
      invariant Scan(depth, start, inStr, esc, spans) == Before(s, i)
      invariant ScanFrom(Before(s, i), s[i..], i) == ScanFrom(INITIAL, s, 0)
      invariant Found(s, i)
    {
      FoundStep(s, i);
      assert s[i..][1..] == s[i + 1..];
      var c := s[i];
      if inStr {
        if esc {
          esc := false;
        } else if c == '\\' {
          esc := true;
        } else if c == '"' {
          inStr := false;
        }
        continue;
      }
      if c == '"' {
        inStr := true;
      } else if c == '{' {
        if depth == 0 {
          start := i;
        }
        depth := depth + 1;
      } else if c == '}' {
        if depth > 0 {
          depth := depth - 1;
          if depth == 0 && start >= 0 {
            spans := spans + [(start, i + 1)];
            start := -1;
          }
        }
      }
    }
  }

  // ---------------------------------------------------------------- JSON texts

  predicate NumberChars(s: string) {
    forall i :: 0 <= i < |s| ==> s[i] in "0123456789+-.eE"
  }

  predicate SpaceChars(s: string) {
    forall i :: 0 <= i < |s| ==> s[i] in " \t\n\r"
  }

  type NumberText = s: string | NumberChars(s) witness "0"

  /** Insignificant whitespace (RFC 8259 section 2). */
  type Space = s: string | SpaceChars(s) witness ""

  type HexDigit = c: char | c in "0123456789abcdefABCDEF" witness '0'

  predicate Unescaped(c: char) { c != '"' && c != '\\' && (c as int) >= 0x20 }

  type PlainChar = c: char | Unescaped(c) witness 'a'

  type ShortEscape = c: char | c in "\"\\/bfnrt" witness 'n'

  /** One character of a string as it is written (RFC 8259 section 7): itself, or either kind of escape. */
  datatype Glyph = Itself(c: PlainChar) | Short(e: ShortEscape) | Unicode(a: HexDigit, b: HexDigit, c2: HexDigit, d: HexDigit)

  /**
   * The texts of RFC 8259, with every choice a printer has: the whitespace between
   * any two tokens, and the way each character of a string is written.
   */
  datatype Json =
    | Null
    | Bool(b: bool)
    | Number(text: NumberText)
    | String(chars: seq<Glyph>)
    | Array(inner: Space, items: seq<Item>)
    | Object(gap: Space, members: seq<Member>)

  datatype Item = Item(before: Space, value: Json, after: Space)

  datatype Member = Member(before: Space, key: seq<Glyph>, mid: Space, colon: Space, value: Json, after: Space)

  function GlyphText(g: Glyph): string {
    match g
    case Itself(c) => [c]
    case Short(e) => ['\\', e]
    case Unicode(a, b, c, d) => ['\\', 'u', a, b, c, d]
  }

  function Glyphs(s: seq<Glyph>): string {
    if s == [] then "" else GlyphText(s[0]) + Glyphs(s[1..])
  }

  function Quote(s: seq<Glyph>): string {
    "\"" + Glyphs(s) + "\""
  }

  function Print(v: Json): string {
    match v
    case Null => "null"
    case Bool(b) => if b then "true" else "false"
    case Number(text) => text
    case String(s) => Quote(s)
    case Array(inner, items) => "[" + (inner + PrintItems(items)) + "]"
    case Object(gap, members) => "{" + (gap + PrintMembers(members)) + "}"
  }

  function PrintItems(items: seq<Item>): string {
    if items == [] then ""
    else items[0].before + Print(items[0].value) + (items[0].after + Comma(|items| > 1)) + PrintItems(items[1..])
  }

  function PrintMembers(members: seq<Member>): string {
    if members == [] then ""
    else
      var m := members[0];
      m.before + Quote(m.key) + (m.mid + ":" + m.colon) + Print(m.value) + (m.after + Comma(|members| > 1))
      + PrintMembers(members[1..])
  }

  function Comma(more: bool): string { if more then "," else "" }

  // ---------------------------------------------------------------- the scanner reads back what was printed

  predicate Plain(s: string) {
    forall i :: 0 <= i < |s| ==> s[i] != '"' && s[i] != '{' && s[i] != '}'
  }

  /** Text without quotes and braces leaves the scanner where it was. */
  lemma {:induction false} PlainIsSkipped(st: Scan, s: string, i: int)
    requires Plain(s) && !st.inStr
    ensures ScanFrom(st, s, i) == st
    decreases |s|
  {
    if s != "" {
      PlainIsSkipped(st, s[1..], i + 1);
    }
  }

  lemma NothingIsSkipped(st: Scan, i: int)
    ensures ScanFrom(st, "", i) == st
  {
  }

  /** Two texts that leave the scanner where it was, one behind the other. */
  lemma SkipBoth(st: Scan, a: string, b: string, i: int)
    requires ScanFrom(st, a, i) == st && ScanFrom(st, b, i + |a|) == st
    ensures ScanFrom(st, a + b, i) == st
  {
    ScanConcat(st, a, b, i);
  }

  /** However its characters are written, a string's content never ends it early. */
  lemma {:induction false} GlyphsAreSkipped(st: Scan, s: seq<Glyph>, i: int)
    requires st.inStr && !st.esc
    ensures ScanFrom(st, Glyphs(s), i) == st
    decreases |s|
  {
    hide ScanFrom, GlyphText;
    if s == [] {
      InStringIsSkipped(st, "", i);
    } else {
      GlyphIsSkipped(st, s[0], i);
      GlyphsAreSkipped(st, s[1..], i + |GlyphText(s[0])|);
      SkipBoth(st, GlyphText(s[0]), Glyphs(s[1..]), i);
    }
  }

  lemma GlyphIsSkipped(st: Scan, g: Glyph, i: int)
    requires st.inStr && !st.esc
    ensures ScanFrom(st, GlyphText(g), i) == st
  {
    hide ScanFrom;
    match g
    case Itself(c) => InStringIsSkipped(st, [c], i);
    case Short(e) =>
      NothingIsSkipped(st, i + 2);
      BackslashIsSkipped(st, e, "", i);
      assert ['\\', e] == ['\\'] + ([e] + "");
    case Unicode(a, b, c, d) => UnicodeIsSkipped(st, a, b, c, d, i);
  }

  lemma UnicodeIsSkipped(st: Scan, a: HexDigit, b: HexDigit, c: HexDigit, d: HexDigit, i: int)
    requires st.inStr && !st.esc
    ensures ScanFrom(st, ['\\', 'u', a, b, c, d], i) == st
  {
    hide ScanFrom;
    FourAreSkipped(st, a, b, c, d, i + 2);
    BackslashIsSkipped(st, 'u', [a, b, c, d], i);
    assert ['\\', 'u', a, b, c, d] == ['\\'] + (['u'] + [a, b, c, d]);
  }

  lemma FourAreSkipped(st: Scan, a: HexDigit, b: HexDigit, c: HexDigit, d: HexDigit, i: int)
    requires st.inStr && !st.esc
    ensures ScanFrom(st, [a, b, c, d], i) == st
  {
    hide ScanFrom;
    HexIsInner(a);
    HexIsInner(b);
    HexIsInner(c);
    HexIsInner(d);
    InStringIsSkipped(st, [a, b, c, d], i);
  }

  lemma HexIsInner(a: HexDigit)
    ensures a != '"' && a != '\\'
  {
  }

  lemma BackslashIsSkipped(st: Scan, c: char, rest: string, i: int)
    requires st.inStr && !st.esc && ScanFrom(st, rest, i + 2) == st
    ensures ScanFrom(st, ['\\'] + ([c] + rest), i) == st
  {
    hide ScanFrom;
    var open := st.(esc := true);
    ScanConcat(st, ['\\'], [c] + rest, i);
    ScanOne(st, '\\', i);
    ScanConcat(open, [c], rest, i + 1);
    ScanOne(open, c, i + 1);
  }

  lemma {:induction false} InStringIsSkipped(st: Scan, s: string, i: int)
    requires st.inStr && !st.esc
    requires forall j :: 0 <= j < |s| ==> s[j] != '"' && s[j] != '\\'
    ensures ScanFrom(st, s, i) == st
    decreases |s|
  {
    if s != "" {
      InStringIsSkipped(st, s[1..], i + 1);
    }
  }

  lemma QuotedIsSkipped(st: Scan, s: seq<Glyph>, i: int)
    requires !st.inStr && !st.esc
    ensures ScanFrom(st, Quote(s), i) == st
  {
    hide ScanFrom;
    var open := st.(inStr := true);
    ScanConcat(st, "\"" + Glyphs(s), "\"", i);
    ScanConcat(st, "\"", Glyphs(s), i);
    ScanOne(st, '"', i);
    GlyphsAreSkipped(open, s, i + 1);
    ScanOne(open, '"', i + 1 + |Glyphs(s)|);
  }

  /** Inside an object, a value leaves the scanner where it was, however it is printed. */
  lemma {:induction false} ValueIsSkipped(st: Scan, v: Json, i: int)
    requires !st.inStr && !st.esc && st.depth > 0
    ensures ScanFrom(st, Print(v), i) == st
    decreases v, 2
  {
    hide ScanFrom, PrintItems, PrintMembers, Quote, Plain, SpaceChars;
    match v {
      case String(s) => QuotedIsSkipped(st, s, i);
      case Array(inner, items) =>
        ItemsAreSkipped(st, items, i + 1 + |inner|);
        SpaceIsPlain(inner);
        PlainIsSkipped(st, inner, i + 1);
        SkipBoth(st, inner, PrintItems(items), i + 1);
        BracketsAreSkipped(st, inner + PrintItems(items), i);
      case Object(gap, members) => ObjectIsSkipped(st, gap, members, i);
      case _ => ScalarIsSkipped(st, v, i);
    }
  }

  lemma ScalarIsSkipped(st: Scan, v: Json, i: int)
    requires !st.inStr && (v.Null? || v.Bool? || v.Number?)
    ensures ScanFrom(st, Print(v), i) == st
  {
    hide ScanFrom, Plain;
    WordsArePlain();
    if v.Number? {
      NumberIsPlain(v.text);
    }
    PlainIsSkipped(st, Print(v), i);
  }

  lemma WordsArePlain()
    ensures Plain("null") && Plain("true") && Plain("false")
  {
  }

  lemma NumberIsPlain(text: NumberText)
    ensures Plain(text)
  {
  }

  lemma BracketsAreSkipped(st: Scan, inner: string, i: int)
    requires !st.inStr && ScanFrom(st, inner, i + 1) == st
    ensures ScanFrom(st, "[" + inner + "]", i) == st
  {
    hide ScanFrom;
    PlainIsSkipped(st, "[", i);
    SkipBoth(st, "[", inner, i);
    PlainIsSkipped(st, "]", i + 1 + |inner|);
    SkipBoth(st, "[" + inner, "]", i);
  }

  /** What stands between the tokens of a text holds no quotes and no braces. */
  lemma SpaceIsPlain(a: Space)
    ensures Plain(a) && Plain(a + ",") && Plain(a + "") && Plain("")
  {
  }

  lemma ColonIsPlain(a: Space, b: Space)
    ensures Plain(a + ":" + b)
  {
  }

  lemma {:induction false} ObjectIsSkipped(st: Scan, gap: Space, members: seq<Member>, i: int)
    requires !st.inStr && !st.esc && st.depth > 0
    ensures ScanFrom(st, Print(Object(gap, members)), i) == st
    decreases members, 1
  {
    hide ScanFrom, PrintMembers, Plain;
    var inner, body := st.(depth := st.depth + 1), gap + PrintMembers(members);
    ScanConcat(st, "{" + body, "}", i);
    ScanConcat(st, "{", body, i);
    ScanOne(st, '{', i);
    BodyIsSkipped(inner, gap, members, i + 1);
    ScanOne(inner, '}', i + 1 + |body|);
  }

  lemma {:induction false} BodyIsSkipped(st: Scan, gap: Space, members: seq<Member>, i: int)
    requires !st.inStr && !st.esc && st.depth > 0
    ensures ScanFrom(st, gap + PrintMembers(members), i) == st
    decreases members, 0, 1
  {
    hide ScanFrom, PrintMembers, Plain;
    SpaceIsPlain(gap);
    PlainIsSkipped(st, gap, i);
    MembersAreSkipped(st, members, i + |gap|);
    SkipBoth(st, gap, PrintMembers(members), i);
  }

  lemma {:induction false} ItemsAreSkipped(st: Scan, items: seq<Item>, i: int)
    requires !st.inStr && !st.esc && st.depth > 0
    ensures ScanFrom(st, PrintItems(items), i) == st
    decreases items, 0
  {
    hide ScanFrom, Print, Plain, SpaceChars;
    if items == [] {
      NothingIsSkipped(st, i);
    } else {
      var x, comma := items[0], Comma(|items| > 1);
      var p := Print(x.value);
      SpaceIsPlain(x.before);
      PlainIsSkipped(st, x.before, i);
      ValueIsSkipped(st, x.value, i + |x.before|);
      SkipBoth(st, x.before, p, i);
      SpaceIsPlain(x.after);
      PlainIsSkipped(st, x.after + comma, i + |x.before + p|);
      SkipBoth(st, x.before + p, x.after + comma, i);
      ItemsAreSkipped(st, items[1..], i + |x.before + p + (x.after + comma)|);
      SkipBoth(st, x.before + p + (x.after + comma), PrintItems(items[1..]), i);
    }
  }

  lemma {:induction false} MembersAreSkipped(st: Scan, members: seq<Member>, i: int)
    requires !st.inStr && !st.esc && st.depth > 0
    ensures ScanFrom(st, PrintMembers(members), i) == st
    decreases members, 0, 0
  {
    hide ScanFrom, Print, Quote, Plain, SpaceChars;
    if members == [] {
      NothingIsSkipped(st, i);
    } else {
      var m, comma := members[0], Comma(|members| > 1);
      var q, p, mid := Quote(m.key), Print(m.value), m.mid + ":" + m.colon;
      SpaceIsPlain(m.before);
      PlainIsSkipped(st, m.before, i);
      QuotedIsSkipped(st, m.key, i + |m.before|);
      SkipBoth(st, m.before, q, i);
      ColonIsPlain(m.mid, m.colon);
      PlainIsSkipped(st, mid, i + |m.before + q|);
      SkipBoth(st, m.before + q, mid, i);
      ValueIsSkipped(st, m.value, i + |m.before + q + mid|);
      SkipBoth(st, m.before + q + mid, p, i);
      SpaceIsPlain(m.after);
      PlainIsSkipped(st, m.after + comma, i + |m.before + q + mid + p|);
      SkipBoth(st, m.before + q + mid + p, m.after + comma, i);
      MembersAreSkipped(st, members[1..], i + |m.before + q + mid + p + (m.after + comma)|);
      SkipBoth(st, m.before + q + mid + p + (m.after + comma), PrintMembers(members[1..]), i);
    }
  }

  /** A reply: prose without quotes or braces, and JSON objects. */
  datatype Piece = Prose(text: string) | Call(gap: Space, members: seq<Member>)

  function PieceText(p: Piece): string {
    match p
    case Prose(text) => text
    case Call(gap, members) => Print(Object(gap, members))
  }

  function Reply(pieces: seq<Piece>): string {
    if pieces == [] then "" else Reply(pieces[..|pieces| - 1]) + PieceText(pieces[|pieces| - 1])
  }

  function Offsets(pieces: seq<Piece>): seq<(int, int)> {
    if pieces == [] then []
    else
      var before, p := pieces[..|pieces| - 1], pieces[|pieces| - 1];
      Offsets(before) + if p.Call? then [(|Reply(before)|, |Reply(before)| + |PieceText(p)|)] else []
  }

  lemma ObjectIsOneSpan(st: Scan, gap: Space, members: seq<Member>, i: int)
    requires !st.inStr && !st.esc && st.depth == 0 && st.start == -1 && i >= 0
    ensures ScanFrom(st, Print(Object(gap, members)), i) ==
            st.(spans := st.spans + [(i, i + |Print(Object(gap, members))|)])
  {
    hide ScanFrom, PrintMembers;
    var inner, body := st.(depth := 1, start := i), gap + PrintMembers(members);
    ScanConcat(st, "{" + body, "}", i);
    ScanConcat(st, "{", body, i);
    ScanOne(st, '{', i);
    BodyIsSkipped(inner, gap, members, i + 1);
    ScanOne(inner, '}', i + 1 + |body|);
  }

  /** Round trip: the scanner returns exactly the printed objects' offsets, in order. */
  lemma {:induction false} SpansOfReply(pieces: seq<Piece>)
    requires forall k :: 0 <= k < |pieces| && pieces[k].Prose? ==> Plain(pieces[k].text)
    ensures ScanFrom(INITIAL, Reply(pieces), 0) == INITIAL.(spans := Offsets(pieces))
  {
    hide ScanFrom, Print;
    if pieces == [] {
      PlainIsSkipped(INITIAL, "", 0);
    } else {
      var before, p := pieces[..|pieces| - 1], pieces[|pieces| - 1];
      SpansOfReply(before);
      ScanConcat(INITIAL, Reply(before), PieceText(p), 0);
      var st := INITIAL.(spans := Offsets(before));
      match p {
        case Prose(text) => PlainIsSkipped(st, text, |Reply(before)|);
        case Call(gap, members) => ObjectIsOneSpan(st, gap, members, |Reply(before)|);
      }
    }
  }

  // ---------------------------------------------------------------- the name in front of an object

  predicate IsGap(c: char) {
    c in " \t\r\n`:("
  }

  predicate IsIdent(c: char) {
    c == '_' || 'a' <= c <= 'z' || 'A' <= c <= 'Z' || '0' <= c <= '9'
  }

  /** By ASCII codes: space, tab, line ends, backtick, colon and opening parenthesis
      separate; digits, letters and the underscore make names. */
  lemma GapsAndNames(c: char)
    ensures var n := c as int;
      && (IsGap(c) <==> n == 32 || n == 9 || n == 13 || n == 10 || n == 96 || n == 58 || n == 40)
      && (IsIdent(c) <==> 48 <= n < 58 || 65 <= n < 91 || n == 95 || 97 <= n < 123)
  {
  }

  function TrimGap(s: string): (t: string)
    ensures t <= s
  {
    if s != "" && IsGap(s[|s| - 1]) then TrimGap(s[..|s| - 1]) else s
  }

  /** name is the longest identifier that ends t. */
  ghost predicate EndsWithName(t: string, name: string) {
    && |name| <= |t| && name == t[|t| - |name|..]
    && (forall k :: |t| - |name| <= k < |t| ==> IsIdent(t[k]))
    && (|name| < |t| ==> !IsIdent(t[|t| - |name| - 1]))
  }

  /** The longest identifier at the end of s, once its trailing separators are off. */
  method ToolNameBefore(s: string) returns (name: string)
    ensures EndsWithName(TrimGap(s), name)
  {
    var t := TrimGap(s);
    var i := |t|;
    while i > 0
      invariant 0 <= i <= |t|
      invariant forall k :: i <= k < |t| ==> IsIdent(t[k])
    {
      var c := t[i - 1];
      if !IsIdent(c) {
        break;
      }
      i := i - 1;
    }
    name := t[i..];
  }

  /** A name written directly before its arguments is the one name that is found. */
  lemma NameIsFound(before: string, name: string, gap: string, found: string)
    requires name != "" && (forall k :: 0 <= k < |name| ==> IsIdent(name[k]))
    requires forall k :: 0 <= k < |gap| ==> IsGap(gap[k])
    requires before != "" ==> !IsIdent(before[|before| - 1])
    ensures EndsWithName(TrimGap(before + name + gap), found) <==> found == name
  {
    var t := before + name;
    assert IsIdent(name[|name| - 1]) && t[|t| - 1] == name[|name| - 1];
    TrimGapAfter(t, gap);
    NameEnds(before, name);
    hide TrimGap, IsIdent, IsGap;
    if EndsWithName(t, found) {
      NameUnique(t, found, name);
    }
  }

  lemma NameEnds(before: string, name: string)
    requires forall k :: 0 <= k < |name| ==> IsIdent(name[k])
    requires before != "" ==> !IsIdent(before[|before| - 1])
    ensures EndsWithName(before + name, name)
  {
    hide IsIdent;
    var t := before + name;
    assert t[|t| - |name|..] == name;
    assert forall k :: |before| <= k < |t| ==> t[k] == name[k - |before|];
    assert before != "" ==> t[|before| - 1] == before[|before| - 1];
  }

  lemma NameUnique(t: string, a: string, b: string)
    requires EndsWithName(t, a) && EndsWithName(t, b)
    ensures a == b
  {
    hide IsIdent;
  }

  lemma {:induction false} TrimGapAfter(t: string, gap: string)
    requires t != "" && !IsGap(t[|t| - 1])
    requires forall k :: 0 <= k < |gap| ==> IsGap(gap[k])
    ensures TrimGap(t + gap) == t
    decreases |gap|
  {
    if gap == "" {
      assert t + gap == t;
    } else {
      assert (t + gap)[..|t + gap| - 1] == t + gap[..|gap| - 1];
      TrimGapAfter(t, gap[..|gap| - 1]);
    }
  }
}
