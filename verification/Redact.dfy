/**
 Cluster-name redaction (internal/business/redact.go): one pass per name over the
 text, each replacing the occurrences no name character touches.
 */
module Redact {
  import opened Text

  predicate IsNameChar(c: char) {
    'a' <= c <= 'z' || 'A' <= c <= 'Z' || '0' <= c <= '9' || c == '_' || c == '-'
  }

  /** By their ASCII codes: digits, capitals, small letters, the hyphen and the underscore, and nothing else. */
  lemma NameCharsAre(c: char)
    ensures var n := c as int;
      IsNameChar(c) <==> 48 <= n < 58 || 65 <= n < 91 || 97 <= n < 123 || n == 45 || n == 95
  {
  }

  predicate AllNameChars(s: string) {
    forall i :: 0 <= i < |s| ==> IsNameChar(s[i])
  }

  predicate IsName(s: string) {
    s != "" && AllNameChars(s)
  }

  predicate NameAt(s: string, i: int) {
    0 <= i < |s| && IsNameChar(s[i])
  }

  /** name stands in s at j as a whole token: no name character touches it. */
  predicate WholeToken(s: string, name: string, j: int) {
    OccursAt(s, name, j) && !NameAt(s, j - 1) && !NameAt(s, j + |name|)
  }

  // ---------------------------------------------------------------- simultaneous substitution

  /** The end of the run of name characters that starts s. */
  function RunLength(s: string): (n: nat)
    ensures n <= |s| && AllNameChars(s[..n])
    ensures n < |s| ==> !IsNameChar(s[n])
  {
    if s != "" && IsNameChar(s[0]) then
      var n := RunLength(s[1..]);
      assert s[..n + 1] == [s[0]] + s[1..][..n];
      n + 1
    else 0
  }

  function Lookup(m: map<string, string>, run: string): string {
    if run in m then m[run] else run
  }

  /** Every maximal run of name characters that is a key is replaced by its label.
      inRun: the character in front of s is a name character. */
  function Substitute(inRun: bool, s: string, m: map<string, string>): string
    decreases |s|
  {
    if s == "" then ""
    else if inRun || !IsNameChar(s[0]) then [s[0]] + Substitute(IsNameChar(s[0]), s[1..], m)
    else
      var n := RunLength(s);
      assert n > 0;
      Lookup(m, s[..n]) + Substitute(true, s[n..], m)
  }

  predicate EndsRun(s: string) {
    !NameAt(s, 0)
  }

  lemma RunOf(r: string, rest: string)
    requires AllNameChars(r) && EndsRun(rest)
    ensures RunLength(r + rest) == |r|
    ensures (r + rest)[..|r|] == r && (r + rest)[|r|..] == rest
  {
    if r == "" {
      assert r + rest == rest;
    } else {
      assert (r + rest)[1..] == r[1..] + rest;
      RunOf(r[1..], rest);
    }
  }

  /** Outside a run it does not matter what came before. */
  lemma ContextFree(s: string, m: map<string, string>)
    requires EndsRun(s)
    ensures Substitute(true, s, m) == Substitute(false, s, m)
    ensures EndsRun(Substitute(true, s, m))
  {
  }

  lemma TokenThen(r: string, rest: string, m: map<string, string>)
    requires IsName(r) && EndsRun(rest)
    ensures Substitute(false, r + rest, m) == Lookup(m, r) + Substitute(true, rest, m)
  {
    RunOf(r, rest);
    assert (r + rest)[0] == r[0];
  }

  lemma {:induction false} InsideRun(r: string, rest: string, m: map<string, string>)
    requires AllNameChars(r)
    ensures Substitute(true, r + rest, m) == r + Substitute(true, rest, m)
    decreases |r|
  {
    if r == "" {
      assert r + rest == rest;
    } else {
      assert (r + rest)[1..] == r[1..] + rest;
      InsideRun(r[1..], rest, m);
      assert r == [r[0]] + r[1..];
    }
  }

  // ---------------------------------------------------------------- one pass

  /** A single pass, for any name: occurrences are found left to right without overlap,
      and each is replaced if it is a whole token. */
  function Replaced(s: string, name: string, tag: string, from: nat): string
    requires from <= |s| && name != ""
    decreases |s| - from
  {
    var j := Index(s, name, from);
    if j < 0 then s[from..]
    else
      s[from..j] + (if WholeToken(s, name, j) then tag else name) + Replaced(s, name, tag, j + |name|)
  }

  /** Text from i on, when no whole token of name starts before j, is copied up to j. */
  lemma {:induction false} CopiedUpTo(s: string, name: string, m: map<string, string>, i: nat, j: nat)
    requires IsName(name) && m.Keys == {name} && i <= j <= |s|
    requires forall k :: i <= k < j ==> !WholeToken(s, name, k)
    ensures Substitute(NameAt(s, i - 1), s[i..], m) == s[i..j] + Substitute(NameAt(s, j - 1), s[j..], m)
    decreases j - i
  {
    hide Substitute, IsName;
    if i < j {
      CopiedOne(s, name, m, i);
      CopiedUpTo(s, name, m, i + 1, j);
      CopiedOne(s, name, m, i);
      assert s[i..j] == [s[i]] + s[i + 1..j];
    } else {
      assert s[i..j] == "";
    }
  }

  lemma CopiedOne(s: string, name: string, m: map<string, string>, i: nat)
    requires IsName(name) && m.Keys == {name} && i < |s| && !WholeToken(s, name, i)
    ensures Substitute(NameAt(s, i - 1), s[i..], m) == [s[i]] + Substitute(NameAt(s, i), s[i + 1..], m)
  {
    var t := s[i..];
    assert t[1..] == s[i + 1..];
    if !NameAt(s, i - 1) && IsNameChar(s[i]) {
      var n := RunLength(t);
      var run, rest := t[..n], t[n..];
      assert t == run + rest && run[0] == s[i];
      assert run == name ==> OccursAt(s, name, i) && !NameAt(s, i + |name|) by {
        assert s[i..i + n] == run;
      }
      assert run[1..] + rest == t[1..];
      InsideRun(run[1..], rest, m);
      assert run == [run[0]] + run[1..];
    }
  }

  /** One pass over the text for a name of name characters is a substitution of whole
      runs: nothing is missed by stepping over an occurrence inside a longer run. */
  lemma {:induction false} PassIsSubstitution(s: string, name: string, tag: string, from: nat)
    requires IsName(name) && from <= |s|
    ensures Replaced(s, name, tag, from) == Substitute(NameAt(s, from - 1), s[from..], map[name := tag])
    decreases |s| - from
  {
    hide Substitute, Replaced, WholeToken, Index, OccursAt, NameAt, AllNameChars;
    var m, j := map[name := tag], Index(s, name, from);
    ReplacedStep(s, name, tag, from);
    NoTokenBefore(s, name, from);
    NothingLeft(s, m);
    if j < 0 {
      CopiedUpTo(s, name, m, from, |s|);
    } else {
      CopiedUpTo(s, name, m, from, j);
      OneOccurrence(s, name, tag, j);
      PassIsSubstitution(s, name, tag, j + |name|);
      Assoc(s[from..j], if WholeToken(s, name, j) then tag else name, Replaced(s, name, tag, j + |name|));
    }
  }

  lemma NothingLeft(s: string, m: map<string, string>)
    ensures forall inRun :: Substitute(inRun, s[|s|..], m) == ""
  {
  }

  lemma PassIsWholeSubstitution(s: string, name: string, tag: string)
    requires IsName(name)
    ensures Replaced(s, name, tag, 0) == Substitute(false, s, map[name := tag])
  {
    PassIsSubstitution(s, name, tag, 0);
    assert s[0..] == s;
  }

  lemma NoEmptyName()
    ensures !IsName("")
  {
  }

  lemma OneOccurrence(s: string, name: string, tag: string, j: nat)
    requires IsName(name) && OccursAt(s, name, j)
    ensures Substitute(NameAt(s, j - 1), s[j..], map[name := tag]) ==
            (if WholeToken(s, name, j) then tag else name)
            + Substitute(NameAt(s, j + |name| - 1), s[j + |name|..], map[name := tag])
  {
    hide Substitute, AllNameChars, NameAt, OccursAt, WholeToken;
    var m := map[name := tag];
    Occurrence(s, name, j);
    if WholeToken(s, name, j) {
      TokenThen(name, s[j + |name|..], m);
    } else {
      CopiedUpTo(s, name, m, j, j + |name|);
    }
  }

  /** Where a name of name characters occurs: its end is inside a run, no token starts
      inside it, and if it is a whole token the run ends with it. */
  lemma Occurrence(s: string, name: string, j: nat)
    requires IsName(name) && OccursAt(s, name, j)
    ensures j + |name| <= |s| && s[j..j + |name|] == name && s[j..] == name + s[j + |name|..]
    ensures NameAt(s, j + |name| - 1)
    ensures forall k :: j < k < j + |name| ==> !WholeToken(s, name, k)
    ensures WholeToken(s, name, j) ==> !NameAt(s, j - 1) && EndsRun(s[j + |name|..])
  {
    assert forall k :: j <= k < j + |name| ==> s[k] == name[k - j];
    assert forall k :: j <= k < j + |name| ==> NameAt(s, k);
  }

  lemma ReplacedStep(s: string, name: string, tag: string, i: nat)
    requires i <= |s| && name != ""
    ensures var j := Index(s, name, i);
            if j < 0 then Replaced(s, name, tag, i) == s[i..]
            else
              && i <= j && j + |name| <= |s| && OccursAt(s, name, j)
              && WholeToken(s, name, j) == (!NameAt(s, j - 1) && !NameAt(s, j + |name|))
              && Replaced(s, name, tag, i) ==
                 s[i..j] + (if WholeToken(s, name, j) then tag else name) + Replaced(s, name, tag, j + |name|)
  {
    hide WholeToken, NameAt;
    var j := Index(s, name, i);
    if j >= 0 {
      FoundToken(s, name, j);
    }
  }

  lemma FoundToken(s: string, name: string, j: nat)
    requires OccursAt(s, name, j)
    ensures j + |name| <= |s|
    ensures WholeToken(s, name, j) == (!NameAt(s, j - 1) && !NameAt(s, j + |name|))
  {
  }

  lemma NoTokenBefore(s: string, name: string, i: nat)
    requires i <= |s| && name != ""
    ensures var j := Index(s, name, i);
            forall k :: i <= k < (if j < 0 then |s| else j) ==> !WholeToken(s, name, k)
  {
    hide NameAt;
  }

  lemma Appended(a: string, b: string, c: string, d: string)
    ensures a + b + c + d == a + (b + c + d)
  {
  }

  lemma Assoc(a: string, b: string, c: string)
    ensures a + b + c == a + (b + c)
  {
  }

  lemma Touching(s: string, j: nat, end: nat, before: char, after: char)
    requires before == (if 0 < j <= |s| then s[j - 1] else ' ') && after == (if end < |s| then s[end] else ' ')
    requires j <= |s|
    ensures IsNameChar(before) || IsNameChar(after) <==> NameAt(s, j - 1) || NameAt(s, end)
  {
  }

  method ReplaceToken(s: string, name: string, tag: string) returns (out: string)
    ensures name == "" ==> out == s
    ensures name != "" ==> out == Replaced(s, name, tag, 0)
    ensures IsName(name) ==> out == Substitute(false, s, map[name := tag])
  {
    hide Substitute, Replaced, WholeToken, OccursAt, Index, IsNameChar, NameAt, IsName;
    if name == "" {
      NoEmptyName();
      return s;
    }
    if IsName(name) {
      PassIsWholeSubstitution(s, name, tag);
    }
    out := "";
    var i := 0;
    while true
      invariant 0 <= i <= |s|
      invariant out + Replaced(s, name, tag, i) == Replaced(s, name, tag, 0)
      decreases |s| - i
    {
      ReplacedStep(s, name, tag, i);
      var j := Index(s, name, i);
      if j < 0 {
        out := out + s[i..];
        return;
      }
      ghost var sofar, rest := out, Replaced(s, name, tag, j + |name|);
      out := out + s[i..j];
      var before := if j > 0 then s[j - 1] else ' ';
      var end := j + |name|;
      var after := if end < |s| then s[end] else ' ';
      // Touching decides what WholeToken says of j.
      var piece := if IsNameChar(before) || IsNameChar(after) then name else tag;
      Touching(s, j, end, before, after);
      out := out + piece;
      Appended(sofar, s[i..j], piece, rest);
      i := end;
    }
  }

  // ---------------------------------------------------------------- all names

  function Core(k: nat): string {
    "cluster-" + Decimal(k)
  }

  function Marker(k: nat): string {
    "<" + Core(k) + ">"
  }

  lemma CoreIsName(k: nat)
    ensures IsName(Core(k))
  {
    var d := Decimal(k);
    assert forall i :: 0 <= i < |d| ==> IsNameChar(d[i]);
  }

  predicate Distinct(names: seq<string>) {
    forall i, j :: 0 <= i < j < |names| ==> names[i] != names[j]
  }

  predicate AllNames(names: seq<string>) {
    forall i :: 0 <= i < |names| ==> IsName(names[i])
  }

  /** labels[n]: the i-th name in alphabetical order becomes <cluster-i>, from 1. */
  function Labels(names: seq<string>): (m: map<string, string>)
    requires Distinct(names)
    ensures forall i :: 0 <= i < |names| ==> names[i] in m && m[names[i]] == Marker(i + 1)
    ensures forall n :: n in m ==> n in names
  {
    map i | 0 <= i < |names| :: names[i] := Marker(i + 1)
  }

  /** No configured name is the text inside one of the markers: something a caller can
      check before redacting. */
  predicate NoCoreIsAName(names: seq<string>) {
    forall k :: 1 <= k <= |names| ==> Core(k) !in names
  }

  /** The labels used so far: markers whose inside is not one of the names still to come. */
  ghost predicate Markers(m: map<string, string>, keys: set<string>) {
    forall n :: n in m ==> exists k: nat :: m[n] == Marker(k) && Core(k) !in keys
  }

  lemma CopiedChar(inRun: bool, c: char, rest: string, m: map<string, string>)
    requires inRun || !IsNameChar(c)
    ensures Substitute(inRun, [c] + rest, m) == [c] + Substitute(IsNameChar(c), rest, m)
  {
    assert ([c] + rest)[1..] == rest;
  }

  /** A marker, read by a later pass, comes through unchanged. */
  lemma MarkerSurvives(inRun: bool, k: nat, rest: string, m: map<string, string>)
    requires Core(k) !in m && EndsRun(rest)
    ensures Substitute(inRun, Marker(k) + rest, m) == Marker(k) + Substitute(true, rest, m)
  {
    hide Substitute, Core, IsName;
    var core, x := Core(k), Substitute(true, rest, m);
    CoreIsName(k);
    MarkerParts(k, rest);
    MarkerParts(k, x);
    CopiedChar(inRun, '<', core + ([GT] + rest), m);
    TokenThen(core, [GT] + rest, m);
    CopiedChar(true, GT, rest, m);
    ContextFree(rest, m);
  }

  const GT := '>'

  lemma MarkerParts(k: nat, rest: string)
    ensures Marker(k) + rest == ['<'] + (Core(k) + ([GT] + rest))
  {
  }

  /** Two passes are one substitution of both sets of names. */
  lemma {:induction false} TwoPasses(inRun: bool, s: string, m1: map<string, string>, m2: map<string, string>)
    requires m1.Keys !! m2.Keys && Markers(m1, m2.Keys)
    ensures Substitute(inRun, Substitute(inRun, s, m1), m2) == Substitute(inRun, s, m1 + m2)
    decreases |s|
  {
    if s == "" {
    } else if inRun || !IsNameChar(s[0]) {
      var q := IsNameChar(s[0]);
      TwoPasses(q, s[1..], m1, m2);
      CopiedChar(inRun, s[0], Substitute(q, s[1..], m1), m2);
    } else {
      var n := RunLength(s);
      assert IsNameChar(s[0]) ==> n > 0;
      TwoPasses(true, s[n..], m1, m2);
      TwoPassesOverRun(s[..n], s[n..], m1, m2);
    }
  }

  lemma TwoPassesOverRun(r: string, rest: string, m1: map<string, string>, m2: map<string, string>)
    requires IsName(r) && EndsRun(rest)
    requires m1.Keys !! m2.Keys && Markers(m1, m2.Keys)
    ensures Substitute(false, Lookup(m1, r) + Substitute(true, rest, m1), m2) ==
            Lookup(m1 + m2, r) + Substitute(true, Substitute(true, rest, m1), m2)
  {
    var x := Substitute(true, rest, m1);
    ContextFree(rest, m1);
    if r in m1 {
      var k: nat :| m1[r] == Marker(k) && Core(k) !in m2.Keys;
      MarkerSurvives(false, k, x, m2);
    } else {
      TokenThen(r, x, m2);
    }
  }

  lemma NothingHere(inRun: bool, s: string)
    requires s != ""
    ensures Substitute(inRun, s, map[]) ==
      if inRun || !IsNameChar(s[0]) then [s[0]] + Substitute(IsNameChar(s[0]), s[1..], map[])
      else s[..RunLength(s)] + Substitute(true, s[RunLength(s)..], map[])
  {
    hide IsNameChar, RunLength;
  }

  /** With nothing to replace the text stays. */
  lemma {:induction false} NothingToDo(inRun: bool, s: string)
    ensures Substitute(inRun, s, map[]) == s
    decreases |s|
  {
    if s != "" {
      NothingHere(inRun, s);
      hide Substitute, IsNameChar;
      if inRun || !IsNameChar(s[0]) {
        NothingToDo(IsNameChar(s[0]), s[1..]);
        assert s == [s[0]] + s[1..];
      } else {
        var n := RunLength(s);
        NothingToDo(true, s[n..]);
        assert s == s[..n] + s[n..];
      }
    }
  }

  /** Passing over the text once per name, in the order given. */
  function Chain(s: string, order: seq<string>, labels: map<string, string>): string
    requires forall i :: 0 <= i < |order| ==> order[i] in labels && order[i] != ""
  {
    if order == [] then s
    else
      var before, n := order[..|order| - 1], order[|order| - 1];
      Replaced(Chain(s, before, labels), n, labels[n], 0)
  }

  /** The names in any order; the program takes the longest first. */
  ghost predicate Ordered(order: seq<string>, names: seq<string>) {
    && Distinct(order)
    && (forall i :: 0 <= i < |order| ==> order[i] in names)
    && (forall n :: n in names ==> n in order)
  }

  function Restrict(m: map<string, string>, keys: set<string>): map<string, string> {
    map n | n in m && n in keys :: m[n]
  }

  lemma {:induction false} ChainIsSubstitution(s: string, order: seq<string>, labels: map<string, string>)
    requires AllNames(order) && Distinct(order)
    requires forall i :: 0 <= i < |order| ==> order[i] in labels
    requires Markers(labels, labels.Keys)
    ensures Chain(s, order, labels) == Substitute(false, s, Restrict(labels, set n | n in order))
    decreases |order|
  {
    hide Substitute, Replaced, AllNameChars;
    if order == [] {
      assert Restrict(labels, set n | n in order) == map[];
      NothingToDo(false, s);
    } else {
      var before, n := order[..|order| - 1], order[|order| - 1];
      ChainIsSubstitution(s, before, labels);
      var done, one := Restrict(labels, set x | x in before), map[n := labels[n]];
      PassIsWholeSubstitution(Chain(s, before, labels), n, labels[n]);
      assert forall x :: x in order <==> x in before || x == n;
      assert n !in before;
      assert done + one == Restrict(labels, set x | x in order);
      TwoPasses(false, s, done, one);
    }
  }

  lemma LabelsKeepOut(names: seq<string>)
    requires Distinct(names) && NoCoreIsAName(names)
    ensures Markers(Labels(names), Labels(names).Keys)
  {
    var m := Labels(names);
    forall n | n in m
      ensures exists k: nat :: m[n] == Marker(k) && Core(k) !in m.Keys
    {
      var i :| 0 <= i < |names| && names[i] == n;
      assert m[n] == Marker(i + 1) && Core(i + 1) !in names;
    }
  }

  /** For names of name characters the chain is one simultaneous substitution of whole runs, in any order of the passes. */
  lemma RunsSubstituted(names: seq<string>, order: seq<string>, s: string)
    requires Distinct(names) && AllNames(names) && Ordered(order, names) && NoCoreIsAName(names)
    ensures forall i :: 0 <= i < |order| ==> order[i] in Labels(names) && order[i] != ""
    ensures Chain(s, order, Labels(names)) == Substitute(false, s, Labels(names))
  {
    hide Substitute, Chain, Labels, NoCoreIsAName, Markers, IsName, Distinct;
    LabelsKeepOut(names);
    OrderCoversLabels(names, order);
    ChainIsSubstitution(s, order, Labels(names));
  }

  lemma OrderCoversLabels(names: seq<string>, order: seq<string>)
    requires Distinct(names) && AllNames(names) && Ordered(order, names)
    ensures AllNames(order) && Labels(names).Keys == (set n | n in order)
    ensures Restrict(Labels(names), set n | n in order) == Labels(names)
    ensures forall i :: 0 <= i < |order| ==> order[i] in Labels(names) && order[i] != ""
  {
    NoEmptyName();
  }

  /** Different clusters keep different labels, so a redacted log still tells them apart. */
  lemma {:induction false} DecimalInjective(a: nat, b: nat)
    requires Decimal(a) == Decimal(b)
    ensures a == b
  {
    var s, t := Decimal(a), Decimal(b);
    assert Digit(a % 10) == s[|s| - 1] == Digit(b % 10);
    DigitInjective(a % 10, b % 10);
    if a >= 10 && b >= 10 {
      assert Decimal(a / 10) == s[..|s| - 1] == Decimal(b / 10);
      DecimalInjective(a / 10, b / 10);
    }
  }

  lemma DigitInjective(a: nat, b: nat)
    requires a < 10 && b < 10 && Digit(a) == Digit(b)
    ensures a == b
  {
  }

  lemma LabelsDistinct(names: seq<string>, a: string, b: string)
    requires Distinct(names) && a in names && b in names && Labels(names)[a] == Labels(names)[b]
    ensures a == b
  {
    hide Marker;
    var i :| 0 <= i < |names| && names[i] == a;
    var j :| 0 <= j < |names| && names[j] == b;
    MarkerInjective(i + 1, j + 1);
  }

  lemma MarkerInjective(i: nat, j: nat)
    requires Marker(i) == Marker(j)
    ensures i == j
  {
    MarkerBody(i);
    MarkerBody(j);
    DecimalInjective(i, j);
  }

  lemma MarkerBody(k: nat)
    ensures |Marker(k)| == 10 + |Decimal(k)| && Marker(k)[9..|Marker(k)| - 1] == Decimal(k)
  {
  }
}
