// internal/business/redact.go:189-221: one name, one pass: when no whole token of
// the name is left, whatever the text. Any characters, brackets included.

module RedactAlone {
  import opened Text
  import opened Redact
  import opened RedactPass

  /** Both ends are name characters, or neither is. */
  predicate SameEnds(name: string)
    requires name != ""
  {
    IsNameChar(name[0]) <==> IsNameChar(name[|name| - 1])
  }

  /**
   * The name has the inside of label `k` at `i`, with the label's bracket and then no
   * name character on each side where it goes on.
   */
  predicate ReadsLabel(name: string, k: nat, i: int) {
    var end := i + |Core(k)|;
    && OccursAt(name, Core(k), i)
    && (i > 0 ==> name[i - 1] == '<') && !NameAt(name, i - 2)
    && (end < |name| ==> name[end] == '>') && !NameAt(name, end + 1)
  }

  predicate ReadsItsLabel(name: string, k: nat) { exists i :: 0 <= i < |name| && ReadsLabel(name, k, i) }

  lemma BracketFreeReads(name: string, k: nat)
    requires '<' !in name && '>' !in name
    ensures ReadsItsLabel(name, k) <==> name == Core(k)
  {
    hide Core;
    CoreIsName(k);
    var c := Core(k);
    if name == c {
      assert name[0..|c|] == c && ReadsLabel(name, k, 0);
    }
    if ReadsItsLabel(name, k) {
      var i :| 0 <= i < |name| && ReadsLabel(name, k, i);
      assert i == 0 && |c| == |name| && name[0..|c|] == name;
    }
  }

  // ---- Names that leak ----

  lemma PassLeads(inRun: bool, name: string, rest: string, tag: string)
    requires name != ""
    ensures Pass(inRun, name + rest, name, tag)
         == (if !inRun && !NameAt(rest, 0) then tag else name) + Pass(IsNameChar(name[|name| - 1]), rest, name, tag)
  {
    var s := name + rest;
    assert s[..|name|] == name && s[|name|..] == rest;
  }

  /** Two in a row: the first is touched by the start of the second, and that by the end of the first. */
  lemma TwoInARow(name: string, tag: string)
    requires name != ""
    ensures Replaced(name + name, name, tag, 0)
         == (if IsNameChar(name[0]) then name else tag) + (if IsNameChar(name[|name| - 1]) then name else tag)
  {
    hide Replaced, Pass, IsNameChar;
    var s, x := name + name, if IsNameChar(name[|name| - 1]) then name else tag;
    ReplacedIsPass(s, name, tag, 0);
    assert s[0..] == s && name + "" == name && x + "" == x;
    PassLeads(false, name, name, tag);
    PassLeads(IsNameChar(name[|name| - 1]), name, "", tag);
    PassNothing(IsNameChar(name[|name| - 1]), name, tag);
  }

  /** With ends of two kinds a name leaks where it touches itself. */
  lemma MixedEndsLeak(name: string, k: nat)
    requires name != "" && !SameEnds(name)
    ensures exists j :: WholeToken(Replaced(name + name, name, Marker(k), 0), name, j)
  {
    hide Core, Replaced;
    var n, tag := |name|, Marker(k);
    TwoInARow(name, tag);
    if IsNameChar(name[0]) {
      var out := name + tag;
      assert out[0..n] == name && out[n] == '<' && WholeToken(out, name, 0);
    } else {
      var out := tag + name;
      assert out[|tag|..|tag| + n] == name && out[|tag| - 1] == '>' && WholeToken(out, name, |tag|);
    }
  }

  /** A text with one token: its others would not fit beside it. */
  lemma OnlyToken(a: string, name: string, b: string)
    requires name != "" && SelfFree(name) && |a| < |name| && |b| < |name|
    requires !NameAt(a, |a| - 1) && !NameAt(b, 0)
    ensures var s, e := a + name + b, |a| + |name|;
      && WholeToken(s, name, |a|) && s[0..|a|] == a && s[e..] == b
      && forall k :: 0 <= k < |s| && k != |a| ==> !WholeToken(s, name, k)
  {
    hide SelfFree;
    var s, j, e := a + name + b, |a|, |a| + |name|;
    assert s[j..e] == name && s[0..j] == a && s[e..] == b;
    assert (j > 0 ==> s[j - 1] == a[j - 1]) && (e < |s| ==> s[e] == b[0]);
    assert WholeToken(s, name, j);
    hide NameAt;
    forall k | 0 <= k < |s| && k != j ensures !WholeToken(s, name, k) {
      if k < j {
        NoTwo(s, name, k, j);
      } else if k < e {
        NoneInside(s, name, j);
      }
    }
  }

  lemma OneToken(a: string, name: string, b: string, tag: string)
    requires name != "" && SelfFree(name) && |a| < |name| && |b| < |name|
    requires !NameAt(a, |a| - 1) && !NameAt(b, 0)
    ensures Replaced(a + name + b, name, tag, 0) == a + tag + b
  {
    hide SelfFree, Replaced, WholeToken, NameAt;
    OnlyToken(a, name, b);
    OnlyOneReplaced(a + name + b, name, tag, |a|);
  }

  lemma NoTwo(s: string, name: string, k: nat, j: nat)
    requires SelfFree(name) && WholeToken(s, name, j) && k < j < k + |name|
    ensures !WholeToken(s, name, k)
  {
    if OccursAt(s, name, k) {
      Overlap(s, name, k, j);
    }
  }

  function Front(name: string, i: nat): string
    requires i <= |name|
  {
    if i > 0 then name[..i - 1] else ""
  }

  function Back(name: string, e: nat): string { if e < |name| then name[e + 1..] else "" }

  lemma AroundLabel(name: string, k: nat, i: nat)
    requires ReadsLabel(name, k, i)
    ensures var e := i + |Core(k)|;
      && e <= |name|
      && |Front(name, i)| < |name| && |Back(name, e)| < |name|
      && !NameAt(Front(name, i), |Front(name, i)| - 1) && !NameAt(Back(name, e), 0)
  {
    hide Core;
    CoreIsName(k);
  }

  lemma LabelLeaks(name: string, k: nat, i: nat)
    requires name != "" && SelfFree(name) && ReadsLabel(name, k, i)
    ensures exists s, j :: WholeToken(Replaced(s, name, Marker(k), 0), name, j)
  {
    hide Core, SelfFree, Replaced, Front, Back, NameAt, ReadsLabel, Marker, WholeToken;
    AroundLabel(name, k, i);
    var a, b := Front(name, i), Back(name, i + |Core(k)|);
    OneToken(a, name, b, Marker(k));
    var j := Respelled(name, k, i);
    assert WholeToken(Replaced(a + name + b, name, Marker(k), 0), name, j);
  }

  lemma AroundSpells(name: string, k: nat, i: nat)
    requires ReadsLabel(name, k, i)
    ensures var e := i + |Core(k)|;
      && e <= |name|
      && name == (if i > 0 then Front(name, i) + "<" else "") + Core(k) + (if e < |name| then ">" + Back(name, e) else "")
  {
    hide Core, IsNameChar, Front, Back, NameAt;
    var e := i + |Core(k)|;
    FrontSpells(name, i);
    BackSpells(name, e);
    ThreeParts(name, i, e);
  }

  lemma ThreeParts(name: string, i: nat, e: nat)
    requires i <= e <= |name|
    ensures name == name[..i] + name[i..e] + name[e..]
  {
  }

  lemma FrontSpells(name: string, i: nat)
    requires i <= |name| && (i > 0 ==> name[i - 1] == '<')
    ensures name[..i] == if i > 0 then Front(name, i) + "<" else ""
  {
  }

  lemma BackSpells(name: string, e: nat)
    requires e <= |name| && (e < |name| ==> name[e] == '>')
    ensures name[e..] == if e < |name| then ">" + Back(name, e) else ""
  {
  }

  /** The characters around the label spell the name with it once more. */
  lemma Respelled(name: string, k: nat, i: nat) returns (j: nat)
    requires name != "" && ReadsLabel(name, k, i)
    ensures i + |Core(k)| <= |name|
    ensures WholeToken(Front(name, i) + Marker(k) + Back(name, i + |Core(k)|), name, j)
  {
    hide Core, IsNameChar, ReadsLabel, Front, Back;
    BracketsNoNames();
    AroundSpells(name, k, i);
    FrontIs(name, i);
    var c, e := Core(k), i + |Core(k)|;
    var a, b := Front(name, i), Back(name, e);
    var front, back := if i > 0 then "" else "<", if e < |name| then "" else ">";
    var out := a + ("<" + c + ">") + b;
    j := |front|;
    Joined(a, c, b, i > 0, e < |name|);
    assert (front + name + back)[j..j + |name|] == name;
  }

  lemma FrontIs(name: string, i: nat)
    requires i <= |name|
    ensures (i == 0 ==> Front(name, i) == "") && (forall e :: |name| <= e ==> Back(name, e) == "")
  {
  }

  lemma Joined(a: string, c: string, b: string, left: bool, right: bool)
    requires (!left ==> a == "") && (!right ==> b == "")
    ensures a + ("<" + c + ">") + b
         == (if left then "" else "<") + ((if left then a + "<" else "") + c + (if right then ">" + b else "")) + (if right then "" else ">")
  {
  }

  lemma BracketsNoNames()
    ensures !IsNameChar('<') && !IsNameChar('>')
  {
  }

  // ---- Names that do not ----

  /** Where the text begins with `x`: its first label within `x`, or none. */
  lemma {:induction false} Cover(inRun: bool, s: string, name: string, tag: string, x: string) returns (d: nat)
    requires name != "" && x <= Scan(inRun, s, name, tag)
    ensures d <= |x| && d <= |s| && x[..d] == s[..d]
    ensures d > 0 ==> !StartsToken(inRun, s, name)
    ensures d < |x| ==> StartsToken(if d == 0 then inRun else IsNameChar(s[d - 1]), s[d..], name)
                        && Scan(inRun, s, name, tag) == s[..d] + (tag + Scan(IsNameChar(name[|name| - 1]), s[d..][|name|..], name, tag))
    ensures d == |x| > 0 ==> Scan(inRun, s, name, tag) == x + Scan(IsNameChar(x[d - 1]), s[d..], name, tag)
    decreases |s|
  {
    hide StartsToken, Scan;
    d := 0;
    assert s[0..] == s && s[..0] == "";
    if x == "" {
    } else if StartsToken(inRun, s, name) {
      NotEmpty(inRun, s, name, tag);
      ScanStep(inRun, s, name, tag);
    } else {
      ScanHead(inRun, s, name, tag, x);
      d := Cover(IsNameChar(s[0]), s[1..], name, tag, x[1..]);
      var t, y := s[1..], x[1..];
      assert t[d..] == s[d + 1..] && s[..d + 1] == [s[0]] + t[..d];
      assert x == [x[0]] + y && x[..d + 1] == [x[0]] + y[..d];
      d := d + 1;
    }
  }

  lemma ScanHead(inRun: bool, s: string, name: string, tag: string, x: string)
    requires name != "" && !StartsToken(inRun, s, name) && x != "" && x <= Scan(inRun, s, name, tag)
    ensures s != "" && Scan(inRun, s, name, tag) == [s[0]] + Scan(IsNameChar(s[0]), s[1..], name, tag)
    ensures x[0] == s[0] && x[1..] <= Scan(IsNameChar(s[0]), s[1..], name, tag)
  {
    var rest := Scan(IsNameChar(s[0]), s[1..], name, tag);
    assert ([s[0]] + rest)[1..] == rest;
  }

  /** What stands behind a token of the source is no name character after the pass either. */
  lemma Behind(ctx: bool, s: string, name: string, k: nat)
    requires name != "" && (s == "" || !IsNameChar(s[0]))
    ensures !NameAt(Scan(ctx, s, name, Marker(k)), 0)
  {
  }

  /** A token that starts in a label is read from its inside on. */
  lemma ReadFromInside(name: string, k: nat, rest: string)
    requires name != "" && !NameAt(rest, 0) && StartsToken(false, Core(k) + (">" + rest), name)
    ensures ReadsItsLabel(name, k)
  {
    hide Core;
    CoreIsName(k);
    var c, s := Core(k), Core(k) + (">" + rest);
    assert forall i :: 0 <= i < |c| ==> s[i] == c[i];
    assert c == s[..|name|][0..|c|];
    assert s[|c|] == '>' && (|rest| > 0 ==> s[|c| + 1] == rest[0]);
    assert ReadsLabel(name, k, 0);
  }

  /** A token with a label in it is read across the label. */
  lemma ReadAcross(a: string, name: string, k: nat, rest: string)
    requires |a| < |name| && !NameAt(a, |a| - 1) && !NameAt(rest, 0)
    requires var s := a + (Marker(k) + rest); name <= s && !NameAt(s, |name|)
    ensures ReadsItsLabel(name, k)
  {
    hide Core;
    CoreIsName(k);
    var c, d, s := Core(k), |a|, a + (Marker(k) + rest);
    var e := d + 1 + |c|;
    assert s[d] == '<' && s[d + 1..e] == c && s[e] == '>' && (|rest| > 0 ==> s[e + 1] == rest[0]);
    assert forall i :: d < i < e ==> s[i] == c[i - d - 1];
    assert |name| >= e;
    assert name[d + 1..e] == s[..|name|][d + 1..e] == c;
    assert d > 0 ==> name[d - 1] == a[d - 1];
    assert ReadsLabel(name, k, d + 1);
  }

  /** The place is where the source goes on unread: at the start of it, behind a kept character, or behind a label. */
  predicate Context(textRun: bool, inRun: bool, s: string, name: string)
    requires name != ""
  {
    textRun == inRun || (!textRun && inRun == IsNameChar(name[|name| - 1]) && !NameAt(s, 0))
  }

  lemma NoneAtHead(textRun: bool, inRun: bool, s: string, name: string, k: nat)
    requires name != "" && SameEnds(name) && !ReadsItsLabel(name, k) && Context(textRun, inRun, s, name)
    ensures !StartsToken(textRun, Scan(inRun, s, name, Marker(k)), name)
  {
    hide Core, ReadsItsLabel, Scan;
    var tag, out := Marker(k), Scan(inRun, s, name, Marker(k));
    if StartsToken(textRun, out, name) {
      var d := Cover(inRun, s, name, tag, name);
      if d < |name| {
        var rest := s[d..][|name|..];
        var after := Scan(IsNameChar(name[|name| - 1]), rest, name, tag);
        Behind(IsNameChar(name[|name| - 1]), rest, name, k);
        assert d > 0 ==> s[..d][d - 1] == s[d - 1];
        ReadAcross(s[..d], name, k, after);
      } else {
        NotKept(textRun, inRun, s, name, k);
      }
    }
  }

  /** A token of kept characters was one of the source, unless a label touches it: its other end then tells. */
  lemma NotKept(textRun: bool, inRun: bool, s: string, name: string, k: nat)
    requires name != "" && SameEnds(name) && Context(textRun, inRun, s, name) && Leads(s, name)
    requires !StartsToken(inRun, s, name)
    requires var tag := Marker(k);
      Scan(inRun, s, name, tag) == name + Scan(IsNameChar(name[|name| - 1]), s[|name|..], name, tag)
    ensures !StartsToken(textRun, Scan(inRun, s, name, Marker(k)), name)
  {
    hide Core;
    var ctx, rest := IsNameChar(name[|name| - 1]), s[|name|..];
    assert s[0] == name[0];
    var after := Scan(ctx, rest, name, Marker(k));
    if rest != "" && IsNameChar(rest[0]) {
      TokenHead(ctx, rest, name);
    }
  }

  lemma {:induction false} NoneAt(textRun: bool, inRun: bool, s: string, name: string, k: nat, j: nat)
    requires name != "" && SameEnds(name) && !ReadsItsLabel(name, k) && Context(textRun, inRun, s, name)
    requires j <= |Scan(inRun, s, name, Marker(k))|
    ensures var out := Scan(inRun, s, name, Marker(k));
      !StartsToken(if j == 0 then textRun else IsNameChar(out[j - 1]), out[j..], name)
    decreases |s|
  {
    hide Core, Marker, SameEnds, ReadsItsLabel, StartsToken, Scan;
    var tag, out := Marker(k), Scan(inRun, s, name, Marker(k));
    if j == 0 {
      NoneAtHead(textRun, inRun, s, name, k);
      assert out[0..] == out;
    } else {
      NotEmpty(inRun, s, name, tag);
      ScanStep(inRun, s, name, tag);
      if StartsToken(inRun, s, name) {
        TokenIs(inRun, s, name);
        var ctx, rest := IsNameChar(name[|name| - 1]), s[|name|..];
        var after := Scan(ctx, rest, name, tag);
        Behind(ctx, rest, name, k);
        if j < |tag| {
          NoneInLabel(name, k, after, j);
        } else {
          NoneAt(false, ctx, rest, name, k, j - |tag|);
          BehindLabel(k, after, j);
        }
      } else {
        var after := Scan(IsNameChar(s[0]), s[1..], name, tag);
        NoneAt(IsNameChar(s[0]), IsNameChar(s[0]), s[1..], name, k, j - 1);
        assert out[j..] == after[j - 1..];
      }
    }
  }

  lemma NotEmpty(inRun: bool, s: string, name: string, tag: string)
    requires name != ""
    ensures Scan(inRun, s, name, tag) != "" ==> s != ""
  {
  }

  lemma BehindLabel(k: nat, after: string, j: nat)
    requires |Marker(k)| <= j <= |Marker(k) + after|
    ensures var tag := Marker(k);
      var out := tag + after;
      j > 0 && out[j..] == after[j - |tag|..] && IsNameChar(out[j - 1]) == (j > |tag| && IsNameChar(after[j - |tag| - 1]))
  {
    hide Core;
  }

  lemma TokenHead(inRun: bool, s: string, name: string)
    requires name != ""
    ensures StartsToken(inRun, s, name) ==> !inRun && s != "" && s[0] == name[0]
  {
    assert |name| <= |s| ==> s[..|name|][0] == s[0];
  }

  lemma TokenIs(inRun: bool, s: string, name: string)
    requires name != "" && StartsToken(inRun, s, name)
    ensures s != "" && |name| <= |s| && !NameAt(s[|name|..], 0)
  {
  }

  lemma NoneInLabel(name: string, k: nat, rest: string, j: nat)
    requires name != "" && !ReadsItsLabel(name, k) && !NameAt(rest, 0) && 0 < j < |Marker(k)|
    ensures var out := Marker(k) + rest; !StartsToken(IsNameChar(out[j - 1]), out[j..], name)
  {
    hide Core, ReadsItsLabel;
    CoreIsName(k);
    var out := Marker(k) + rest;
    if j == 1 {
      assert out[1..] == Core(k) + (">" + rest);
      if StartsToken(false, out[1..], name) {
        ReadFromInside(name, k, rest);
      }
    } else {
      assert out[j - 1] == Core(k)[j - 2];
    }
  }

  /**
   * One pass leaves no whole token of the name in any text if and only if the name
   * does not overlap itself, has ends of one kind, and does not read like its label.
   */
  lemma AloneIff(name: string, k: nat)
    requires name != ""
    ensures (forall s, j :: !WholeToken(Replaced(s, name, Marker(k), 0), name, j))
       <==> SelfFree(name) && SameEnds(name) && !ReadsItsLabel(name, k)
  {
    hide Core, Replaced, Scan, WholeToken, SameEnds, ReadsItsLabel, SelfFree;
    if !SelfFree(name) {
      var p: nat := OverlapOf(name);
      TrapSkips("a", name, p, Marker(k));
    } else if !SameEnds(name) {
      MixedEndsLeak(name, k);
    } else if ReadsItsLabel(name, k) {
      var i := LabelIn(name, k);
      LabelLeaks(name, k, i);
    } else {
      forall s, j ensures !WholeToken(Replaced(s, name, Marker(k), 0), name, j) {
        NoneOfName(s, name, k, j);
      }
    }
  }

  lemma OverlapOf(name: string) returns (p: nat)
    requires !SelfFree(name)
    ensures OverlapsAt(name, p)
  {
    p :| OverlapsAt(name, p);
  }

  lemma LabelIn(name: string, k: nat) returns (i: nat)
    requires ReadsItsLabel(name, k)
    ensures ReadsLabel(name, k, i)
  {
    i :| i < |name| && ReadsLabel(name, k, i);
  }

  lemma NoneOfName(s: string, name: string, k: nat, j: int)
    requires name != "" && SelfFree(name) && SameEnds(name) && !ReadsItsLabel(name, k)
    ensures !WholeToken(Replaced(s, name, Marker(k), 0), name, j)
  {
    hide Core, SelfFree, SameEnds, ReadsItsLabel, Scan, Replaced, StartsToken;
    var out := Replaced(s, name, Marker(k), 0);
    PassIsScan(s, name, Marker(k), 0);
    assert s[0..] == s && !NameAt(s, -1);
    if 0 <= j <= |out| {
      NoneAt(false, false, s, name, k, j);
      TokenStarts(out, name, j);
    }
  }

  /** Without angle brackets only the inside of its own label is such a name. */
  lemma BracketFreeAloneIff(name: string, k: nat)
    requires name != "" && '<' !in name && '>' !in name
    ensures (forall s, j :: !WholeToken(Replaced(s, name, Marker(k), 0), name, j))
       <==> SelfFree(name) && SameEnds(name) && name != Core(k)
  {
    hide Core, Replaced, WholeToken, SameEnds, ReadsItsLabel, SelfFree;
    AloneIff(name, k);
    BracketFreeReads(name, k);
  }
}
