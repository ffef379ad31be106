// internal/business/redact.go:157-187: what the chain of passes guarantees, and for
// which names.

module RedactNames {
  import opened Text
  import opened Redact
  import opened RedactPass
  import opened RedactAlone
  import opened RedactPieces

  // ---- No token is missed or taken apart ----

  function Width(p: Piece): nat { if p.Kept? then 1 else |p.name| }

  /** A label takes the place of source text between `j` and `j + |n|`. */
  predicate Hidden(ps: seq<Piece>, j: int, n: string)
    decreases |ps|
  {
    ps != [] && ((ps[0].Tagged? && j < |ps[0].name| && 0 < j + |n|) || Hidden(ps[1..], j - Width(ps[0]), n))
  }

  lemma {:induction false} HiddenBehind(ps: seq<Piece>, k: nat, j: int, n: string)
    requires k <= |ps| && (forall i :: 0 <= i < k ==> ps[i].Kept?)
    ensures Hidden(ps, j, n) <==> Hidden(ps[k..], j - k, n)
    decreases k
  {
    if k > 0 {
      HiddenBehind(ps[1..], k - 1, j - 1, n);
      assert ps[1..][k - 1..] == ps[k..];
    } else {
      assert ps[0..] == ps;
    }
  }

  lemma {:induction false} HiddenStays(inRun: bool, ps: seq<Piece>, name: string, j: int, n: string)
    requires name != "" && Hidden(ps, j, n)
    ensures Hidden(TagAll(inRun, ps, name), j, n)
    decreases |ps|
  {
    hide Stands, TagAll, Hidden;
    HiddenParts(ps, j, n);
    TagAllStep(inRun, ps, name);
    if Stands(inRun, ps, name) {
      StandsKeeps(inRun, ps, name);
      HiddenBehind(ps, |name|, j, n);
      HiddenStays(EndsNamed(name), ps[|name|..], name, j - |name|, n);
      HiddenByTail(Tagged(name), TagAll(EndsNamed(name), ps[|name|..], name), j, n);
    } else if Hidden(ps[1..], j - Width(ps[0]), n) {
      HiddenStays(RunsOn(ps[0]), ps[1..], name, j - Width(ps[0]), n);
      HiddenByTail(ps[0], TagAll(RunsOn(ps[0]), ps[1..], name), j, n);
    } else {
      HiddenByHead(ps[0], TagAll(RunsOn(ps[0]), ps[1..], name), j, n);
    }
  }

  lemma HiddenParts(ps: seq<Piece>, j: int, n: string)
    requires Hidden(ps, j, n)
    ensures ps != []
    ensures Hidden(ps[1..], j - Width(ps[0]), n) || (ps[0].Tagged? && j < |ps[0].name| && 0 < j + |n|)
  {
  }

  lemma StandsKeeps(inRun: bool, ps: seq<Piece>, name: string)
    requires Stands(inRun, ps, name)
    ensures |name| <= |ps| && forall i :: 0 <= i < |name| ==> ps[i].Kept?
  {
  }

  lemma HiddenByHead(p: Piece, rest: seq<Piece>, j: int, n: string)
    requires p.Tagged? && j < |p.name| && 0 < j + |n|
    ensures Hidden([p] + rest, j, n)
  {
  }

  lemma HiddenByTail(p: Piece, rest: seq<Piece>, j: int, n: string)
    requires Hidden(rest, j - Width(p), n)
    ensures Hidden([p] + rest, j, n)
  {
    assert ([p] + rest)[1..] == rest;
  }

  predicate TagsNamed(ps: seq<Piece>) { forall i :: 0 <= i < |ps| && ps[i].Tagged? ==> ps[i].name != "" }

  /** A token of the source that the pieces do not spell has a label in it. */
  lemma {:induction false} UnspelledIsHidden(ps: seq<Piece>, rest: string, n: string, j: int)
    requires rest <= Source(ps) && !Spelled(ps, rest) && TagsNamed(ps) && j <= 0 && 0 < |rest| == j + |n|
    ensures Hidden(ps, j, n)
    decreases |ps|
  {
    if ps[0].Kept? {
      assert Source(ps) == [ps[0].c] + Source(ps[1..]);
      PrefixTail(ps[0].c, Source(ps[1..]), rest);
      SpelledTail(ps, rest);
      if |rest| > 1 {
        UnspelledIsHidden(ps[1..], rest[1..], n, j - 1);
      }
    }
  }

  /** `n` is a whole token of the source at `j`, behind a name character if `inRun`. */
  predicate TokenIn(inRun: bool, s: string, j: nat, n: string) {
    j <= |s| && StartsToken(if j == 0 then inRun else IsNameChar(s[j - 1]), s[j..], n)
  }

  lemma TokenInTail(inRun: bool, s: string, a: string, rest: string, j: nat, n: string)
    requires s == a + rest && a != "" && |a| <= j && TokenIn(inRun, s, j, n)
    ensures TokenIn(EndsNamed(a), rest, j - |a|, n)
  {
    assert s[j..] == rest[j - |a|..];
    assert j == |a| ==> s[j - 1] == a[|a| - 1];
    assert j > |a| ==> s[j - 1] == rest[j - |a| - 1];
  }

  /** The source character in front of what follows `p` is a name character. */
  predicate RanOn(p: Piece) { if p.Kept? then IsNameChar(p.c) else EndsNamed(p.name) }

  /** After the pass for `n` every whole token of `n` in the source is hidden. */
  lemma {:induction false} PassHides(inRun: bool, ran: bool, ps: seq<Piece>, n: string, j: nat)
    requires n != "" && (inRun ==> ran) && TagsNamed(ps) && TokenIn(ran, Source(ps), j, n)
    ensures Hidden(TagAll(inRun, ps, n), j, n)
    decreases |ps|
  {
    hide Stands, StartsToken, Hidden, TagAll, TagsNamed, Source, TokenIn;
    TokenFits(ran, ps, j, n);
    TagAllStep(inRun, ps, n);
    TagsOf(ps);
    if Stands(inRun, ps, n) {
      if j < |n| {
        HiddenByHead(Tagged(n), TagAll(EndsNamed(n), ps[|n|..], n), j, n);
      } else {
        BehindToken(inRun, ran, ps, n, j);
        PassHides(EndsNamed(n), EndsNamed(n), ps[|n|..], n, j - |n|);
        HiddenByTail(Tagged(n), TagAll(EndsNamed(n), ps[|n|..], n), j, n);
      }
    } else if j >= Width(ps[0]) {
      BehindHead(ran, ps, n, j);
      PassHides(RunsOn(ps[0]), RanOn(ps[0]), ps[1..], n, j - Width(ps[0]));
      HiddenByTail(ps[0], TagAll(RunsOn(ps[0]), ps[1..], n), j, n);
    } else if ps[0].Tagged? {
      HiddenByHead(ps[0], TagAll(RunsOn(ps[0]), ps[1..], n), j, n);
    } else {
      UnstandingIsUnspelled(inRun, ran, ps, n);
      UnspelledIsHidden(ps, n, n, 0);
      HiddenStays(inRun, ps, n, 0, n);
    }
  }

  lemma TagsOf(ps: seq<Piece>)
    requires ps != [] && TagsNamed(ps)
    ensures (ps[0].Tagged? ==> ps[0].name != "") && forall i :: 0 <= i <= |ps| ==> TagsNamed(ps[i..])
  {
  }

  lemma BehindToken(inRun: bool, ran: bool, ps: seq<Piece>, n: string, j: nat)
    requires n != "" && TokenIn(ran, Source(ps), j, n) && Stands(inRun, ps, n) && j >= |n|
    ensures |n| <= |ps| && TokenIn(EndsNamed(n), Source(ps[|n|..]), j - |n|, n)
  {
    hide TokenIn, Source;
    SpelledSplits(ps, n);
    var rest := ps[|n|..];
    SourceConcat(ps[..|n|], rest);
    TokenInTail(ran, Source(ps), n, Source(rest), j, n);
  }

  lemma BehindHead(ran: bool, ps: seq<Piece>, n: string, j: nat)
    requires ps != [] && (ps[0].Tagged? ==> ps[0].name != "") && TokenIn(ran, Source(ps), j, n) && j >= Width(ps[0])
    ensures TokenIn(RanOn(ps[0]), Source(ps[1..]), j - Width(ps[0]), n)
  {
    hide TokenIn;
    var head := if ps[0].Kept? then [ps[0].c] else ps[0].name;
    TokenInTail(ran, Source(ps), head, Source(ps[1..]), j, n);
  }

  lemma TokenFits(inRun: bool, ps: seq<Piece>, j: nat, n: string)
    requires n != "" && TokenIn(inRun, Source(ps), j, n)
    ensures ps != []
  {
  }

  /** What is spelled where the source has a token stands. */
  lemma UnstandingIsUnspelled(inRun: bool, ran: bool, ps: seq<Piece>, n: string)
    requires n != "" && (inRun ==> ran) && !Stands(inRun, ps, n) && TokenIn(ran, Source(ps), 0, n)
    ensures n <= Source(ps) && !Spelled(ps, n)
  {
    hide Source;
    var s := Source(ps);
    assert s[0..] == s && n == s[..|n|];
    if Spelled(ps, n) {
      SpelledSplits(ps, n);
      SourceConcat(ps[..|n|], ps[|n|..]);
      assert s[|n|..] == Source(ps[|n|..]);
      SourceEnds(ps[|n|..]);
    }
  }

  lemma SourceEnds(ps: seq<Piece>)
    ensures !NameAt(Source(ps), 0) ==> Ends(ps)
  {
  }

  /** The passes, longest names first. */
  predicate LongestFirst(order: seq<string>) { forall i, j :: 0 <= i < j < |order| ==> |order[i]| >= |order[j]| }

  predicate TagsAtLeast(ps: seq<Piece>, len: nat) {
    forall i :: 0 <= i < |ps| && ps[i].Tagged? ==> |ps[i].name| >= len
  }

  /**
   * Once its pass is over a whole token of the name in the source is hidden by a label,
   * its own or that of an earlier pass: with the longest first, of a name no shorter.
   */
  predicate Hides(s: string, order: seq<string>, i: nat, j: int)
    requires i < |order|
  {
    var ps := Tagging(s, order[..i + 1]);
    WholeToken(s, order[i], j) ==> Hidden(ps, j, order[i]) && (LongestFirst(order) ==> TagsAtLeast(ps, |order[i]|))
  }

  lemma HidesIf(s: string, order: seq<string>, i: nat, j: int)
    requires i < |order| && (WholeToken(s, order[i], j) ==> Hidden(Tagging(s, order[..i + 1]), j, order[i]))
    requires LongestFirst(order) ==> TagsAtLeast(Tagging(s, order[..i + 1]), |order[i]|)
    ensures Hides(s, order, i, j)
  {
  }

  lemma TokensHide(s: string, order: seq<string>, i: nat, j: int)
    requires AllPlain(order) && AllSelfFree(order) && i < |order|
    ensures Hides(s, order, i, j)
  {
    hide Hidden, TagPass, TagAll, SelfFree, WholeToken, Source, Hides, LongestFirst, TagsAtLeast;
    var before, n, upto := order[..i], order[i], order[..i + 1];
    assert upto[..i] == before && upto[i] == n;
    TaggingIs(s, upto);
    if LongestFirst(order) {
      EarlierAreLonger(s, order, i);
    }
    if WholeToken(s, n, j) {
      var was := Tagging(s, before);
      TaggingIs(s, before);
      TagPassIsAll(false, was, n);
      TokenIsIn(s, n, j);
      PassHides(false, false, was, n, j);
    }
    HidesIf(s, order, i, j);
  }

  lemma EarlierAreLonger(s: string, order: seq<string>, i: nat)
    requires AllPlain(order) && i < |order| && LongestFirst(order)
    ensures TagsAtLeast(Tagging(s, order[..i + 1]), |order[i]|)
  {
    hide Tagging;
    TaggingIs(s, order[..i + 1]);
  }

  /** And hidden it stays. */
  lemma {:induction false} StaysHidden(s: string, order: seq<string>, m: nat, j: int, n: string)
    requires AllPlain(order) && AllSelfFree(order) && m <= |order| && Hidden(Tagging(s, order[..m]), j, n)
    ensures Hidden(Tagging(s, order), j, n)
    decreases |order|
  {
    hide Hidden, TagPass, TagAll, SelfFree;
    if m == |order| {
      assert order[..m] == order;
    } else {
      var before, x := order[..|order| - 1], order[|order| - 1];
      assert before[..m] == order[..m];
      StaysHidden(s, before, m, j, n);
      TagPassIsAll(false, Tagging(s, before), x);
      HiddenStays(false, Tagging(s, before), x, j, n);
    }
  }

  lemma {:induction false} TaggingIs(s: string, order: seq<string>)
    requires AllPlain(order)
    ensures var ps := Tagging(s, order); Source(ps) == s && TagsFrom(ps, order) && TagsNamed(ps)
    decreases |order|
  {
    hide Source, TagPass;
    if order == [] {
      UntouchedIs(s, map[]);
      NothingTagged(s);
    } else {
      var before, n := order[..|order| - 1], order[|order| - 1];
      TaggingIs(s, before);
      TagPassKeepsSource(false, Tagging(s, before), n);
      TagPassTags(false, Tagging(s, before), n, before);
      assert order == before + [n];
    }
  }

  lemma TokenIsIn(s: string, n: string, j: int)
    requires WholeToken(s, n, j)
    ensures j >= 0 && TokenIn(false, s, j, n)
  {
    TokenStarts(s, n, j);
  }

  // ---- What redaction is for ----

  lemma OrderFits(names: seq<string>, order: seq<string>)
    requires Distinct(names) && AllPlain(names) && Ordered(order, names)
    ensures InOrder(order, Labels(names)) && AllPlain(order)
    ensures AllSelfFree(names) ==> AllSelfFree(order)
  {
    hide SelfFree;
  }

  lemma LabelsAreSafe(names: seq<string>, order: seq<string>)
    requires Distinct(names) && NoCoreIsAName(names) && Ordered(order, names)
    ensures AllSafe(order, Labels(names))
  {
    var m := Labels(names);
    forall i, x | 0 <= i < |order| && x in m ensures exists k: nat :: m[x] == Marker(k) && Core(k) != order[i] {
      var l :| 0 <= l < |names| && names[l] == x;
      assert m[x] == Marker(l + 1) && Core(l + 1) != order[i];
    }
  }

  /**
   * Redaction does what it is for: the text is the source with labels in the place of
   * names, no token is missed or taken apart by a shorter name's label, and no name is
   * left as a whole token.
   */
  ghost predicate Redacts(names: seq<string>, order: seq<string>, s: string)
    requires Distinct(names) && AllPlain(names) && Ordered(order, names)
  {
    var labels, ps := Labels(names), Tagging(s, order);
    OrderFits(names, order);
    && InLabels(ps, labels) && Shown(ps, labels) == Chain(s, order, labels)
    && (forall i, j :: 0 <= i < |order| ==> Hides(s, order, i, j))
    && (forall n, j :: n in names ==> !WholeToken(Chain(s, order, labels), n, j))
  }

  /** In any order of the passes in which the ends fit no name is left. */
  lemma NoneOf(s: string, order: seq<string>, labels: Labelling)
    requires AllPlain(order) && InOrder(order, labels) && AllSafe(order, labels) && AllSelfFree(order) && EndsFit(order)
    ensures forall n, j :: n in order ==> !WholeToken(Chain(s, order, labels), n, j)
  {
    hide SelfFree, Shown, Source, InLabels, StandsNowhere, Safe, EndsFit, WholeToken, Tagging, TagsFrom, Marked;
    ChainTags(s, order, labels);
    forall n, j | n in order ensures !WholeToken(Chain(s, order, labels), n, j) {
      var i :| 0 <= i < |order| && order[i] == n;
      NoneStands(s, order, i);
      NoneLeft(Tagging(s, order), labels, n, j);
    }
  }

  lemma NoNameLeft(names: seq<string>, order: seq<string>, s: string)
    requires Distinct(names) && AllPlain(names) && Ordered(order, names) && NoCoreIsAName(names)
    requires AllSelfFree(names) && EndsFit(order)
    ensures InOrder(order, Labels(names))
    ensures forall n, j :: n in names ==> !WholeToken(Chain(s, order, Labels(names)), n, j)
  {
    hide NoCoreIsAName, SelfFree, EndsFit, WholeToken, AllSafe, Chain;
    OrderFits(names, order);
    LabelsAreSafe(names, order);
    NoneOf(s, order, Labels(names));
  }

  lemma FittingNamesRedact(names: seq<string>, order: seq<string>, s: string)
    requires Distinct(names) && AllPlain(names) && Ordered(order, names) && NoCoreIsAName(names)
    requires AllSelfFree(names) && EndsFit(order)
    ensures Redacts(names, order, s)
  {
    hide NoCoreIsAName, SelfFree, Shown, Source, InLabels, Safe, EndsFit, WholeToken, Tagging, Hides, TagsFrom, Marked, Plain;
    NoNameLeft(names, order, s);
    OrderFits(names, order);
    LabelsAreSafe(names, order);
    ChainTags(s, order, Labels(names));
    forall i, j | 0 <= i < |order| ensures Hides(s, order, i, j) {
      TokensHide(s, order, i, j);
    }
  }

  lemma {:induction false} ChainConcat(s: string, a: seq<string>, b: seq<string>, labels: Labelling)
    requires forall i :: 0 <= i < |a| ==> a[i] in labels && a[i] != ""
    requires forall i :: 0 <= i < |b| ==> b[i] in labels && b[i] != ""
    ensures forall i :: 0 <= i < |a + b| ==> (a + b)[i] in labels && (a + b)[i] != ""
    ensures Chain(s, a + b, labels) == Chain(Chain(s, a, labels), b, labels)
    decreases |b|
  {
    hide Replaced;
    if b == [] {
      assert a + b == a;
    } else {
      var n := |b| - 1;
      assert (a + b)[..|a + b| - 1] == a + b[..n];
      ChainConcat(s, a, b[..n], labels);
    }
  }

  /** Names that do not occur in a text leave it alone. */
  lemma {:induction false} ChainUnchanged(s: string, order: seq<string>, labels: Labelling)
    requires forall i :: 0 <= i < |order| ==> order[i] in labels && order[i] != ""
    requires forall i, j :: 0 <= i < |order| ==> !WholeToken(s, order[i], j)
    ensures Chain(s, order, labels) == s
    decreases |order|
  {
    hide WholeToken, Replaced;
    if order != [] {
      var n := |order| - 1;
      ChainUnchanged(s, order[..n], labels);
      NoneIsUnchanged(s, order[n], labels[order[n]], 0);
      assert s[0..] == s;
    }
  }

  /** Redacting twice is redacting once. */
  lemma RedactIdempotent(names: seq<string>, order: seq<string>, s: string)
    requires Distinct(names) && AllPlain(names) && Ordered(order, names) && NoCoreIsAName(names)
    requires AllSelfFree(names) && EndsFit(order) && InOrder(order, Labels(names))
    ensures var once := Chain(s, order, Labels(names)); Chain(once, order, Labels(names)) == once
  {
    hide NoCoreIsAName, SelfFree, EndsFit, WholeToken, AllPlain;
    NoNameLeft(names, order, s);
    ChainUnchanged(Chain(s, order, Labels(names)), order, Labels(names));
  }

  // ---- When a name is the inside of a label ----

  lemma LongerOccursNot(s: string, n: string, j: int)
    requires |n| >= |s| && n != s
    ensures !WholeToken(s, n, j)
  {
    assert s[0..|s|] == s;
  }

  lemma NameBecomesLabel(x: string, tag: string)
    requires x != ""
    ensures Replaced(x, x, tag, 0) == tag
  {
    assert x[0..|x|] == x;
    assert Index(x, x, 0) == 0 && WholeToken(x, x, 0);
    assert Index(x, x, |x|) == -1;
    assert x[0..0] + tag + x[|x|..] == tag;
  }

  predicate DoublyBracketed(s: string) { |s| >= 2 && s[0] == '<' && s[1] == '<' }

  /** A pass over a label leaves it, or, when the name is its inside, puts a label into it. */
  lemma PassOverLabel(k: nat, n: string, tag: string)
    requires Plain(n) && tag != "" && tag[0] == '<'
    ensures n != Core(k) ==> Replaced(Marker(k), n, tag, 0) == Marker(k)
    ensures n == Core(k) ==> DoublyBracketed(Replaced(Marker(k), n, tag, 0))
  {
    hide Pass, Core, StartsToken, Replaced, Leads;
    var s := Marker(k);
    ReplacedIsPass(s, n, tag, 0);
    assert s[0..] == s && !NameAt(s, -1) && s + "" == s;
    if n != Core(k) {
      PassLabel(false, k, "", n, tag);
      PassNothing(false, n, tag);
    } else {
      assert s == ['<'] + (n + ">");
      NotAtBracket('<', n + ">", n);
      PassChar(false, '<', n + ">", n, tag);
      PassLeads(false, n, ">", tag);
    }
  }

  lemma PassKeepsBrackets(s: string, n: string, tag: string)
    requires Plain(n) && DoublyBracketed(s)
    ensures DoublyBracketed(Replaced(s, n, tag, 0))
  {
    hide Pass, StartsToken, Replaced, Leads;
    ReplacedIsPass(s, n, tag, 0);
    var rest := s[2..];
    assert s[0..] == s && !NameAt(s, -1);
    assert s == ['<'] + (['<'] + rest);
    NotAtBracket('<', ['<'] + rest, n);
    PassChar(false, '<', ['<'] + rest, n, tag);
    NotAtBracket('<', rest, n);
    PassChar(false, '<', rest, n, tag);
  }

  lemma {:induction false} ChainOverLabel(k: nat, order: seq<string>, labels: Labelling)
    requires AllPlain(order) && Bracketed(labels) && InOrder(order, labels)
    ensures Chain(Marker(k), order, labels) == Marker(k) || DoublyBracketed(Chain(Marker(k), order, labels))
    decreases |order|
  {
    hide Plain, Replaced, DoublyBracketed, Marker, Core;
    if order != [] {
      var before, n := order[..|order| - 1], order[|order| - 1];
      assert forall i :: 0 <= i < |before| ==> before[i] == order[i];
      ChainOverLabel(k, before, labels);
      if DoublyBracketed(Chain(Marker(k), before, labels)) {
        PassKeepsBrackets(Chain(Marker(k), before, labels), n, labels[n]);
      } else {
        PassOverLabel(k, n, labels[n]);
      }
    }
  }

  /** No source without brackets shows two of them at its start. */
  lemma BracketsAreNotShown(ps: seq<Piece>, labels: Labelling)
    requires InLabels(ps, labels) && '<' !in Source(ps) && forall x :: x in labels ==> exists k: nat :: labels[x] == Marker(k)
    ensures !DoublyBracketed(Shown(ps, labels))
  {
    hide Decimal;
    if ps != [] {
      ShownHead(ps, labels);
      if ps[0].Kept? {
        assert Source(ps)[0] == ps[0].c;
      } else {
        var k: nat :| labels[ps[0].name] == Marker(k);
        assert Marker(k)[1] == 'c';
      }
    }
  }

  lemma CoreNameFails(names: seq<string>, order: seq<string>, k: nat)
    requires Distinct(names) && AllPlain(names) && Ordered(order, names) && LongestFirst(order)
    requires 1 <= k <= |names| && Core(k) in names
    ensures !Redacts(names, order, names[k - 1])
  {
    hide Plain, WholeToken, Chain, Core, Marker, DoublyBracketed, Shown, Source, Replaced, InLabels, Tagging, Hides, LongestFirst;
    OrderFits(names, order);
    var x, labels := names[k - 1], Labels(names);
    LabelsAreMarkers(names);
    ChainOfName(names, order, k);
    MarkerHoldsCore(k);
    TaggingIs(x, order);
    PlainIs(x);
    var ps := Tagging(x, order);
    if InLabels(ps, labels) {
      BracketsAreNotShown(ps, labels);
    }
  }

  lemma PlainIs(n: string)
    requires Plain(n)
    ensures n != "" && '<' !in n && '>' !in n
  {
  }

  lemma LabelsAreMarkers(names: seq<string>)
    requires Distinct(names)
    ensures forall x :: x in Labels(names) ==> exists k: nat :: Labels(names)[x] == Marker(k)
    ensures Bracketed(Labels(names))
  {
    var m := Labels(names);
    forall x | x in m ensures (exists k: nat :: m[x] == Marker(k)) && m[x] != "" && m[x][0] == '<' {
      var i :| 0 <= i < |names| && names[i] == x;
      assert m[x] == Marker(i + 1);
    }
  }

  lemma MarkerHoldsCore(k: nat)
    ensures WholeToken(Marker(k), Core(k), 1)
  {
    var c := Core(k);
    assert Marker(k)[1..1 + |c|] == c;
  }

  /** A text that is just one name: the passes before its own do not touch it, the others meet its label. */
  lemma ChainOfName(names: seq<string>, order: seq<string>, k: nat)
    requires Distinct(names) && AllPlain(names) && Ordered(order, names) && LongestFirst(order)
    requires 1 <= k <= |names|
    ensures InOrder(order, Labels(names))
    ensures var out := Chain(names[k - 1], order, Labels(names)); out == Marker(k) || DoublyBracketed(out)
  {
    hide Plain, WholeToken, Core, Marker, DoublyBracketed, Replaced, Chain, LongestFirst;
    OrderFits(names, order);
    LabelsAreMarkers(names);
    var x, labels := names[k - 1], Labels(names);
    var i :| 0 <= i < |order| && order[i] == x;
    var b := order[i + 1..];
    assert forall m :: 0 <= m < |b| ==> b[m] in order;
    LongerLeave(order, i, labels);
    PlainIs(x);
    NameBecomesLabel(x, labels[x]);
    ChainAround(x, order, i, b, labels);
    ChainOverLabel(k, b, labels);
  }

  lemma LongerLeave(order: seq<string>, i: nat, labels: Labelling)
    requires i < |order| && LongestFirst(order) && Distinct(order)
    requires forall m :: 0 <= m < |order| ==> order[m] in labels && order[m] != ""
    ensures Chain(order[i], order[..i], labels) == order[i]
  {
    hide WholeToken, Chain;
    forall m, j | 0 <= m < i ensures !WholeToken(order[i], order[..i][m], j) {
      assert order[..i][m] == order[m] && |order[m]| >= |order[i]|;
      LongerOccursNot(order[i], order[m], j);
    }
    ChainUnchanged(order[i], order[..i], labels);
  }

  lemma ChainAround(s: string, order: seq<string>, i: nat, b: seq<string>, labels: Labelling)
    requires i < |order| && b == order[i + 1..] && forall m :: 0 <= m < |order| ==> order[m] in labels && order[m] != ""
    ensures forall m :: 0 <= m < |b| ==> b[m] in labels && b[m] != ""
    ensures Chain(s, order, labels)
            == Chain(Replaced(Chain(s, order[..i], labels), order[i], labels[order[i]], 0), b, labels)
  {
    hide Replaced;
    var a := order[..i + 1];
    assert order == a + b && a[..i] == order[..i] && a[i] == order[i];
    ChainConcat(s, a, b, labels);
  }

  // ---- When a name overlaps itself ----

  function Run(n: nat): (s: string)
    ensures |s| == n && forall i :: 0 <= i < n ==> s[i] == 'a'
  {
    seq(n, _ => 'a')
  }

  /** A token at least as long in the trap of a name is that name, or overlaps itself as well. */
  lemma TokenInTrap(run: string, n: string, p: nat, x: string, t: int)
    requires OverlapsAt(n, p) && AllNameChars(run) && |n| <= |x| < |run| && WholeToken(Trap(run, n, p), x, t)
    ensures x == n || OverlapsAt(x, p)
  {
    hide Trap;
    var s, r := Trap(run, n, p), |run|;
    TrapHolds(run, n, p);
    TrapPeriod(run, n, p);
    assert t <= r ==> !(0 < t) && !NameAt(s, |x|);
    assert r < t <= r + p;
    if t < r + p {
      forall i | 0 <= i < |x| - p ensures x[p..][i] == x[..|x| - p][i] {
        assert s[t..t + |x|][p + i] == s[t + i + p] && s[t..t + |x|][i] == s[t + i];
      }
      assert s[t..t + |x|][p - 1] == s[t - 1 + p] == s[t - 1];
    }
  }

  lemma TrapPeriod(run: string, n: string, p: nat)
    requires OverlapsAt(n, p) && run != ""
    ensures var s, r := Trap(run, n, p), |run|; |s| == r + p + |n| && forall i :: r <= i < r + |n| ==> s[i + p] == s[i]
  {
    hide Trap;
    var s, r := Trap(run, n, p), |run|;
    TrapHolds(run, n, p);
    forall i | r <= i < r + |n| ensures s[i + p] == s[i] {
      assert s[r..r + |n|][i - r] == s[r + p..r + p + |n|][i - r];
    }
  }

  /** The trap of the first name that overlaps itself is left alone by all passes up to its own. */
  lemma TrapStays(order: seq<string>, i: nat, p: nat, run: string, labels: Labelling)
    requires AllPlain(order) && InOrder(order, labels) && Distinct(order) && LongestFirst(order) && i < |order|
    requires AllSelfFree(order[..i]) && OverlapsAt(order[i], p) && AllNameChars(run) && |run| > |order[0]|
    ensures var s := Trap(run, order[i], p); Chain(s, order[..i + 1], labels) == s
  {
    hide Trap, WholeToken, SelfFree, Replaced, Plain;
    var n, before, upto := order[i], order[..i], order[..i + 1];
    var s := Trap(run, n, p);
    forall m, t | 0 <= m < i ensures !WholeToken(s, before[m], t) {
      assert before[m] == order[m] && |order[0]| >= |order[m]| >= |n|;
      FreeNotInTrap(run, n, p, order[m], t);
    }
    ChainUnchanged(s, before, labels);
    assert upto[..i] == before && upto[i] == n;
    TrapSkips(run, n, p, labels[n]);
  }

  lemma FreeNotInTrap(run: string, n: string, p: nat, x: string, t: int)
    requires OverlapsAt(n, p) && AllNameChars(run) && |n| <= |x| < |run| && n != x && SelfFree(x)
    ensures !WholeToken(Trap(run, n, p), x, t)
  {
    hide Trap, WholeToken;
    if WholeToken(Trap(run, n, p), x, t) {
      TokenInTrap(run, n, p, x, t);
    }
  }

  /** Pieces that show no bracket show no label, so nothing is hidden. */
  lemma {:induction false} NothingHidden(ps: seq<Piece>, labels: Labelling, j: int, n: string)
    requires InLabels(ps, labels) && Bracketed(labels) && '<' !in Shown(ps, labels)
    ensures !Hidden(ps, j, n)
    decreases |ps|
  {
    hide Shown;
    if ps != [] {
      HeadIsKept(ps, labels);
      NothingHidden(ps[1..], labels, j - Width(ps[0]), n);
    }
  }

  lemma HeadIsKept(ps: seq<Piece>, labels: Labelling)
    requires ps != [] && InLabels(ps, labels) && Bracketed(labels) && '<' !in Shown(ps, labels)
    ensures ps[0].Kept? && '<' !in Shown(ps[1..], labels)
  {
    hide Shown;
    ShownHead(ps, labels);
    var s, rest := Shown(ps, labels), Shown(ps[1..], labels);
    assert forall i :: 0 <= i < |rest| ==> s[|s| - |rest| + i] == rest[i];
    assert forall x :: x in labels ==> (labels[x] + rest)[0] == '<';
  }

  lemma {:induction false} FirstOverlap(order: seq<string>) returns (i: nat)
    requires !AllSelfFree(order)
    ensures i < |order| && !SelfFree(order[i]) && AllSelfFree(order[..i])
    decreases |order|
  {
    hide SelfFree;
    var m := |order| - 1;
    if AllSelfFree(order[..m]) {
      i := m;
    } else {
      i := FirstOverlap(order[..m]);
      assert order[..m][..i] == order[..i] && order[..m][i] == order[i];
    }
  }

  /** So its last token is in plain sight when its pass is over. */
  lemma TrapNotHidden(order: seq<string>, i: nat, p: nat, run: string, labels: Labelling)
    requires AllPlain(order) && InOrder(order, labels) && Distinct(order) && LongestFirst(order) && i < |order|
    requires AllSelfFree(order[..i]) && OverlapsAt(order[i], p) && AllNameChars(run) && |run| > |order[0]|
    requires AllSafe(order, labels) && Bracketed(labels)
    ensures !Hides(Trap(run, order[i], p), order, i, |run| + p)
  {
    hide SelfFree, Trap, Plain, Safe, Shown, Source, InLabels, WholeToken, Hidden, Tagging, TagsFrom, Marked, Chain;
    var n, upto := order[i], order[..i + 1];
    var s := Trap(run, n, p);
    TrapStays(order, i, p, run, labels);
    ChainTags(s, upto, labels);
    TrapHasNoBracket(run, n, p);
    TrapSkips(run, n, p, "");
    NothingHidden(Tagging(s, upto), labels, |run| + p, n);
  }

  lemma OverlapFails(names: seq<string>, order: seq<string>) returns (s: string)
    requires Distinct(names) && AllPlain(names) && Ordered(order, names) && LongestFirst(order) && NoCoreIsAName(names)
    requires !AllSelfFree(names)
    ensures !Redacts(names, order, s)
  {
    hide NoCoreIsAName, SelfFree, Trap, Plain, Safe, Hides, Chain, LongestFirst;
    OrderFits(names, order);
    LabelsAreSafe(names, order);
    LabelsAreMarkers(names);
    OneOverlaps(names, order);
    var i := FirstOverlap(order);
    var p := OverlapOf(order[i]);
    var run := Run(|order[0]| + 1);
    TrapNotHidden(order, i, p, run, Labels(names));
    s := Trap(run, order[i], p);
  }

  lemma OneOverlaps(names: seq<string>, order: seq<string>)
    requires Ordered(order, names)
    ensures AllSelfFree(order) ==> AllSelfFree(names)
  {
    hide SelfFree;
    assert forall i :: 0 <= i < |names| ==> names[i] in order;
  }

  lemma TrapHasNoBracket(run: string, n: string, p: nat)
    requires p <= |n| && Plain(n) && AllNameChars(run)
    ensures '<' !in Trap(run, n, p)
  {
  }

  /**
   * For names whose ends fit, longest first, redaction does what it is for on every text
   * if and only if no cluster is named like the inside of a label in use, and no name
   * overlaps itself behind a character that is no name character.
   */
  lemma RedactsIff(names: seq<string>, order: seq<string>)
    requires Distinct(names) && AllPlain(names) && Ordered(order, names) && LongestFirst(order) && EndsFit(order)
    ensures (forall s :: Redacts(names, order, s)) <==> NoCoreIsAName(names) && AllSelfFree(names)
  {
    hide Plain, Redacts, Core, EndsFit, SelfFree, AllSelfFree, LongestFirst;
    if !NoCoreIsAName(names) {
      var k: nat :| 1 <= k <= |names| && Core(k) in names;
      CoreNameFails(names, order, k);
    } else if !AllSelfFree(names) {
      var s := OverlapFails(names, order);
    } else {
      forall s ensures Redacts(names, order, s) {
        FittingNamesRedact(names, order, s);
      }
    }
  }

  // ---- Which ends fit ----

  /** Ends fit when each name's are of one kind, and those with open ends come last. */
  lemma EndsFitIff(order: seq<string>)
    requires AllPlain(order)
    ensures EndsFit(order) <==>
            && (forall i :: 0 <= i < |order| ==> SameEnds(order[i]))
            && (forall i, j :: 0 <= i < j < |order| && StartsNamed(order[j]) ==> StartsNamed(order[i]))
  {
    if EndsFit(order) {
      assert forall i :: 0 <= i < |order| ==> NoTouch(order[i], order[i]);
      forall i, j | 0 <= i < j < |order| && StartsNamed(order[j]) ensures StartsNamed(order[i]) {
        assert NoTouch(order[i], order[j]);
      }
    }
  }

  // ---- The reusable redactor ----

  /** Every pass in turn. */
  method RedactClusters(s: string, names: seq<string>, order: seq<string>) returns (out: string)
    requires Distinct(names) && (forall i :: 0 <= i < |names| ==> names[i] != "") && Ordered(order, names) && InOrder(order, Labels(names))
    ensures out == Chain(s, order, Labels(names))
    ensures AllPlain(names) && AllSelfFree(names) && EndsFit(order) && NoCoreIsAName(names) ==> Redacts(names, order, s)
    ensures AllNames(names) && NoCoreIsAName(names) ==> out == Substitute(false, s, Labels(names))
  {
    hide NoCoreIsAName, Replaced, Plain, Redacts, Substitute, EndsFit, SelfFree;
    var labels := Labels(names);
    out := s;
    assert order[..0] == [];
    for i := 0 to |order|
      invariant out == Chain(s, order[..i], labels)
    {
      assert order[..i + 1][..i] == order[..i];
      out := ReplaceToken(out, order[i], labels[order[i]]);
    }
    assert order[..|order|] == order;
    if AllPlain(names) && AllSelfFree(names) && EndsFit(order) && NoCoreIsAName(names) {
      FittingNamesRedact(names, order, s);
    }
    if AllNames(names) && NoCoreIsAName(names) {
      RunsSubstituted(names, order, s);
    }
  }
}
