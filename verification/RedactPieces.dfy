// internal/business/redact.go:157-187: the chain of passes, for names of any
// characters but angle brackets, such as prod.eu, arn:aws:cluster/x or prod (eu).

module RedactPieces {
  import opened Text
  import opened Redact
  import opened RedactPass
  import opened RedactAlone

  /** Names no part of a label's brackets can belong to. */
  predicate Plain(name: string) { name != "" && '<' !in name && '>' !in name }

  predicate AllPlain(names: seq<string>) { forall i :: 0 <= i < |names| ==> Plain(names[i]) }

  // ---- A text with some of its tokens replaced ----

  datatype Piece = Kept(c: char) | Tagged(name: string)

  type Labelling = map<string, string>

  function Source(ps: seq<Piece>): string {
    if ps == [] then "" else (match ps[0] case Kept(c) => [c] case Tagged(x) => x) + Source(ps[1..])
  }

  predicate InLabels(ps: seq<Piece>, labels: Labelling) {
    forall i :: 0 <= i < |ps| && ps[i].Tagged? ==> ps[i].name in labels
  }

  function Shown(ps: seq<Piece>, labels: Labelling): string
    requires InLabels(ps, labels)
  {
    if ps == [] then "" else (match ps[0] case Kept(c) => [c] case Tagged(x) => labels[x]) + Shown(ps[1..], labels)
  }

  /** What shows `p` ends with a name character: a label ends with a bracket. */
  predicate RunsOn(p: Piece) { p.Kept? && IsNameChar(p.c) }

  /** No name character follows. */
  predicate Ends(ps: seq<Piece>) { ps == [] || !RunsOn(ps[0]) }

  predicate Spelled(ps: seq<Piece>, name: string) {
    |name| <= |ps| && forall i :: 0 <= i < |name| ==> ps[i] == Kept(name[i])
  }

  /** `name` stands unreplaced at the front of the pieces as a whole token. */
  predicate Stands(inRun: bool, ps: seq<Piece>, name: string) {
    !inRun && Spelled(ps, name) && Ends(ps[|name|..])
  }

  predicate StandsNowhere(inRun: bool, ps: seq<Piece>, name: string)
    decreases |ps|
  {
    ps == [] || (!Stands(inRun, ps, name) && StandsNowhere(RunsOn(ps[0]), ps[1..], name))
  }

  predicate StartsNamed(name: string) { NameAt(name, 0) }

  predicate EndsNamed(name: string) { NameAt(name, |name| - 1) }

  /** One pass: what spells the name is stepped over, and tagged if it stands. */
  function TagPass(inRun: bool, ps: seq<Piece>, name: string): seq<Piece>
    decreases |ps|
  {
    if ps == [] || name == "" then ps
    else if Spelled(ps, name) then
      (if Stands(inRun, ps, name) then [Tagged(name)] else ps[..|name|]) + TagPass(EndsNamed(name), ps[|name|..], name)
    else [ps[0]] + TagPass(RunsOn(ps[0]), ps[1..], name)
  }

  /** The text as it is before any pass. */
  function Untouched(s: string): seq<Piece> {
    if s == "" then [] else [Kept(s[0])] + Untouched(s[1..])
  }

  /** The text behind all the passes. */
  function Tagging(s: string, order: seq<string>): seq<Piece>
  {
    if order == [] then Untouched(s) else TagPass(false, Tagging(s, order[..|order| - 1]), order[|order| - 1])
  }

  // ---- The pieces of the text ----

  lemma {:induction false} SourceConcat(a: seq<Piece>, b: seq<Piece>)
    ensures Source(a + b) == Source(a) + Source(b)
    decreases |a|
  {
    if a == [] {
      assert a + b == b;
    } else {
      assert (a + b)[1..] == a[1..] + b;
      SourceConcat(a[1..], b);
    }
  }

  lemma {:induction false} SpelledOut(ps: seq<Piece>, name: string)
    requires |ps| == |name| && forall i :: 0 <= i < |name| ==> ps[i] == Kept(name[i])
    ensures Source(ps) == name
    decreases |ps|
  {
    if ps != [] {
      SpelledOut(ps[1..], name[1..]);
      assert name == [name[0]] + name[1..];
    }
  }

  lemma SpelledSplits(ps: seq<Piece>, name: string)
    requires name != "" && Spelled(ps, name)
    ensures ps != [] && |name| <= |ps| && Source(ps[..|name|]) == name && Source([Tagged(name)]) == name
    ensures ps == ps[..|name|] + ps[|name|..] && (forall i :: 0 <= i < |name| ==> ps[i].Kept?)
    ensures RunsOn(ps[|name| - 1]) == EndsNamed(name)
  {
    SpelledOut(ps[..|name|], name);
    assert [Tagged(name)][1..] == [];
  }

  /** One step of the pass. */
  lemma TagStep(inRun: bool, ps: seq<Piece>, name: string)
    requires name != "" && ps != []
    ensures Spelled(ps, name) ==>
      |name| <= |ps| && TagPass(inRun, ps, name) ==
        (if Stands(inRun, ps, name) then [Tagged(name)] else ps[..|name|]) + TagPass(EndsNamed(name), ps[|name|..], name)
    ensures !Spelled(ps, name) ==> TagPass(inRun, ps, name) == [ps[0]] + TagPass(RunsOn(ps[0]), ps[1..], name)
    ensures Stands(inRun, ps, name) ==> Spelled(ps, name)
  {
  }

  lemma {:induction false} TagPassKeepsSource(inRun: bool, ps: seq<Piece>, name: string)
    requires name != ""
    ensures Source(TagPass(inRun, ps, name)) == Source(ps)
    decreases |ps|
  {
    hide Stands, Spelled, TagPass;
    if ps == [] {
      TagNothing(inRun, name);
    } else {
      TagStep(inRun, ps, name);
      if Spelled(ps, name) {
        SpelledSplits(ps, name);
        var rest := ps[|name|..];
        TagPassKeepsSource(EndsNamed(name), rest, name);
        SourceConcat(if Stands(inRun, ps, name) then [Tagged(name)] else ps[..|name|], TagPass(EndsNamed(name), rest, name));
        SourceConcat(ps[..|name|], rest);
      } else {
        TagPassKeepsSource(RunsOn(ps[0]), ps[1..], name);
        SourceConcat([ps[0]], TagPass(RunsOn(ps[0]), ps[1..], name));
        SourceConcat([ps[0]], ps[1..]);
        assert ps == [ps[0]] + ps[1..];
      }
    }
  }

  lemma TagNothing(inRun: bool, name: string)
    requires name != ""
    ensures TagPass(inRun, [], name) == []
  {
  }

  lemma {:induction false} UntouchedIs(s: string, labels: Labelling)
    ensures InLabels(Untouched(s), labels) && Source(Untouched(s)) == s && Shown(Untouched(s), labels) == s
    decreases |s|
  {
    if s != "" {
      UntouchedIs(s[1..], labels);
      assert Untouched(s)[1..] == Untouched(s[1..]) && s == [s[0]] + s[1..];
    }
  }

  lemma {:induction false} NothingTagged(s: string)
    ensures forall i :: 0 <= i < |Untouched(s)| ==> Untouched(s)[i].Kept?
  {
    if s != "" {
      NothingTagged(s[1..]);
    }
  }

  // ---- The pass on the text is the tagging of the pieces ----

  /** Labels whose inside is not the name. */
  ghost predicate Safe(labels: Labelling, name: string) {
    forall x :: x in labels ==> exists k: nat :: labels[x] == Marker(k) && Core(k) != name
  }

  ghost predicate Bracketed(labels: Labelling) { forall x :: x in labels ==> labels[x] != "" && labels[x][0] == '<' }

  lemma SafeIsBracketed(labels: Labelling, name: string)
    requires Safe(labels, name)
    ensures Bracketed(labels)
  {
    forall x | x in labels ensures labels[x] != "" && labels[x][0] == '<' {
      var k: nat :| labels[x] == Marker(k) && Core(k) != name;
    }
  }

  lemma PassChar(inRun: bool, c: char, rest: string, name: string, tag: string)
    requires name != "" && !Leads([c] + rest, name)
    ensures Pass(inRun, [c] + rest, name, tag) == [c] + Pass(IsNameChar(c), rest, name, tag)
  {
    assert ([c] + rest)[1..] == rest;
  }

  /** Inside a run of name characters that a bracket ends the pass copies. */
  lemma {:induction false} PassRun(inRun: bool, run: string, rest: string, name: string, tag: string)
    requires Plain(name) && AllNameChars(run) && (inRun || run != name)
    ensures Pass(inRun, run + (">" + rest), name, tag) == run + Pass(inRun || run != "", ">" + rest, name, tag)
    decreases |run|
  {
    hide Pass;
    var tail := ">" + rest;
    var s := run + tail;
    if run == "" {
      assert s == tail;
    } else if Leads(s, name) {
      LeadsInRun(run, rest, name);
      var more := run[|name|..];
      assert run == name + more && s == name + (more + tail);
      PassLeads(inRun, name, more + tail, tag);
      assert more != "" ==> (more + tail)[0] == more[0];
      PassRun(true, more, rest, name, tag);
    } else {
      assert s == [run[0]] + (run[1..] + tail) && run == [run[0]] + run[1..];
      PassChar(inRun, run[0], run[1..] + tail, name, tag);
      PassRun(true, run[1..], rest, name, tag);
    }
  }

  lemma LeadsInRun(run: string, rest: string, name: string)
    requires Plain(name) && AllNameChars(run) && Leads(run + (">" + rest), name)
    ensures |name| <= |run| && name == run[..|name|] && EndsNamed(name)
  {
    var s := run + (">" + rest);
    assert s[|run|] == '>' && forall i :: 0 <= i < |name| ==> s[..|name|][i] == name[i];
  }

  /** The pass goes past a label unchanged. */
  lemma PassLabel(inRun: bool, k: nat, rest: string, name: string, tag: string)
    requires Plain(name) && Core(k) != name
    ensures Pass(inRun, Marker(k) + rest, name, tag) == Marker(k) + Pass(false, rest, name, tag)
  {
    hide Leads, Pass, Core;
    CoreIsName(k);
    var core, tail := Core(k), ">" + rest;
    assert Marker(k) + rest == ['<'] + (core + tail);
    NotAtBracket('<', core + tail, name);
    PassChar(inRun, '<', core + tail, name, tag);
    assert tail == ['>'] + rest;
    NotAtBracket('>', rest, name);
    PassChar(true, '>', rest, name, tag);
    PassCore(k, rest, name, tag);
    assert Marker(k) == ['<'] + core + ['>'];
  }

  lemma PassCore(k: nat, rest: string, name: string, tag: string)
    requires Plain(name) && Core(k) != name
    ensures Pass(false, Core(k) + (">" + rest), name, tag) == Core(k) + Pass(true, ">" + rest, name, tag)
  {
    hide Core;
    CoreIsName(k);
    PassRun(false, Core(k), rest, name, tag);
  }

  lemma NotAtBracket(c: char, rest: string, name: string)
    requires Plain(name) && (c == '<' || c == '>')
    ensures !Leads([c] + rest, name)
  {
    var s := [c] + rest;
    assert |name| <= |s| ==> s[..|name|][0] == c;
  }

  lemma SpelledTail(ps: seq<Piece>, name: string)
    requires ps != [] && name != ""
    ensures Spelled(ps, name) <==> ps[0] == Kept(name[0]) && Spelled(ps[1..], name[1..])
  {
    if Spelled(ps, name) {
      assert forall i :: 0 <= i < |name| - 1 ==> ps[1..][i] == ps[i + 1] && name[1..][i] == name[i + 1];
    }
    if ps[0] == Kept(name[0]) && Spelled(ps[1..], name[1..]) {
      forall i | 0 <= i < |name| ensures ps[i] == Kept(name[i]) {
        if i > 0 {
          assert ps[1..][i - 1] == Kept(name[1..][i - 1]);
        }
      }
    }
  }

  lemma ShownHead(ps: seq<Piece>, labels: Labelling)
    requires ps != [] && InLabels(ps, labels)
    ensures Shown(ps, labels) == (if ps[0].Kept? then [ps[0].c] else labels[ps[0].name]) + Shown(ps[1..], labels)
  {
  }

  /** The text starts with the name exactly when the pieces spell it: a label would show a bracket. */
  lemma {:induction false} ShownPrefix(ps: seq<Piece>, labels: Labelling, name: string)
    requires '<' !in name && InLabels(ps, labels) && Bracketed(labels)
    ensures name <= Shown(ps, labels) <==> Spelled(ps, name)
    ensures Spelled(ps, name) ==> Shown(ps, labels) == name + Shown(ps[|name|..], labels)
    decreases |name|
  {
    hide Shown, Spelled;
    if name == "" {
      NothingSpelled(ps);
    } else if ps == [] {
      EmptyShown(labels, name);
    } else {
      ShownHead(ps, labels);
      SpelledTail(ps, name);
      if ps[0].Kept? {
        ShownPrefix(ps[1..], labels, name[1..]);
        PrefixTail(ps[0].c, Shown(ps[1..], labels), name);
        SpelledFits(ps, name);
        assert |name| <= |ps| ==> ps[1..][|name| - 1..] == ps[|name|..];
        assert name == [name[0]] + name[1..];
      } else {
        assert Shown(ps, labels)[0] == '<';
      }
    }
  }

  lemma PrefixTail(c: char, rest: string, name: string)
    requires name != ""
    ensures name <= [c] + rest <==> name[0] == c && name[1..] <= rest
  {
    var s := [c] + rest;
    assert s[1..] == rest;
    if name <= s {
      assert name == s[..|name|] && name[1..] == rest[..|name| - 1];
    }
    if name[0] == c && name[1..] <= rest {
      assert name == [c] + name[1..] && name == s[..|name|];
    }
  }

  lemma SpelledFits(ps: seq<Piece>, name: string)
    ensures Spelled(ps, name) ==> |name| <= |ps|
  {
  }

  lemma NothingSpelled(ps: seq<Piece>)
    ensures Spelled(ps, "") && ps[0..] == ps
  {
  }

  lemma EmptyShown(labels: Labelling, name: string)
    requires name != ""
    ensures !Spelled([], name) && Shown([], labels) == ""
  {
  }

  /** A token of the text that shows the pieces is a token that stands, and the other way round. */
  lemma StandsIffStarts(inRun: bool, ps: seq<Piece>, labels: Labelling, name: string)
    requires Plain(name) && InLabels(ps, labels) && Bracketed(labels)
    ensures Stands(inRun, ps, name) <==> StartsToken(inRun, Shown(ps, labels), name)
    ensures Spelled(ps, name) <==> Leads(Shown(ps, labels), name)
    ensures Spelled(ps, name) ==> |name| <= |ps| && Shown(ps, labels)[|name|..] == Shown(ps[|name|..], labels)
  {
    hide Shown, Spelled;
    var s := Shown(ps, labels);
    ShownPrefix(ps, labels, name);
    assert name <= s <==> Leads(s, name);
    SpelledFits(ps, name);
    if Spelled(ps, name) {
      EndShown(ps[|name|..], labels);
      assert s[|name|..] == Shown(ps[|name|..], labels);
    }
  }

  lemma EndShown(ps: seq<Piece>, labels: Labelling)
    requires InLabels(ps, labels) && Bracketed(labels)
    ensures Ends(ps) <==> !NameAt(Shown(ps, labels), 0)
  {
  }

  /** One pass over the shown text is the tagging of its pieces. */
  lemma {:induction false} PassTags(inRun: bool, ps: seq<Piece>, labels: Labelling, name: string)
    requires Plain(name) && name in labels && InLabels(ps, labels) && Safe(labels, name)
    ensures InLabels(TagPass(inRun, ps, name), labels)
    ensures Pass(inRun, Shown(ps, labels), name, labels[name]) == Shown(TagPass(inRun, ps, name), labels)
    decreases |ps|
  {
    hide Stands, StartsToken, Shown, Pass, Safe, InLabels, Spelled, TagPass, Leads;
    SafeIsBracketed(labels, name);
    if ps == [] {
      TagNothing(inRun, name);
      NothingShown(inRun, labels, name);
    } else {
      var tag := labels[name];
      StandsIffStarts(inRun, ps, labels, name);
      TagStep(inRun, ps, name);
      if Spelled(ps, name) {
        SpelledSplits(ps, name);
        var rest, head := ps[|name|..], if Stands(inRun, ps, name) then [Tagged(name)] else ps[..|name|];
        LabelsOfTail(ps, |name|, labels);
        PassTags(EndsNamed(name), rest, labels, name);
        HeadShown(ps, name, labels);
        ShownConcat(head, TagPass(EndsNamed(name), rest, name), labels);
        PassStep(inRun, Shown(ps, labels), name, tag);
      } else {
        LabelsOfTail(ps, 1, labels);
        PassTags(RunsOn(ps[0]), ps[1..], labels, name);
        ShownConcat([ps[0]], TagPass(RunsOn(ps[0]), ps[1..], name), labels);
        ShownHead(ps, labels);
        OneShown(ps[0], labels);
        if ps[0].Kept? {
          PassChar(inRun, ps[0].c, Shown(ps[1..], labels), name, tag);
        } else {
          var k := SafeLabel(labels, name, ps[0].name);
          PassLabel(inRun, k, Shown(ps[1..], labels), name, tag);
        }
      }
    }
  }

  lemma SafeLabel(labels: Labelling, name: string, x: string) returns (k: nat)
    requires Safe(labels, name) && x in labels
    ensures labels[x] == Marker(k) && Core(k) != name
  {
    k :| labels[x] == Marker(k) && Core(k) != name;
  }

  lemma PassStep(inRun: bool, s: string, name: string, tag: string)
    requires name != "" && Leads(s, name)
    ensures |name| <= |s| && Pass(inRun, s, name, tag) ==
            (if StartsToken(inRun, s, name) then tag else name) + Pass(EndsNamed(name), s[|name|..], name, tag)
  {
  }

  lemma NothingShown(inRun: bool, labels: Labelling, name: string)
    requires name != "" && name in labels
    ensures InLabels([], labels) && Shown([], labels) == "" && Pass(inRun, "", name, labels[name]) == ""
  {
  }

  lemma OneShown(p: Piece, labels: Labelling)
    requires p.Tagged? ==> p.name in labels
    ensures InLabels([p], labels) && Shown([p], labels) == if p.Kept? then [p.c] else labels[p.name]
  {
    assert [p][1..] == [];
  }

  lemma HeadShown(ps: seq<Piece>, name: string, labels: Labelling)
    requires name != "" && Spelled(ps, name) && name in labels
    ensures |name| <= |ps| && InLabels(ps[..|name|], labels) && InLabels([Tagged(name)], labels)
    ensures Shown(ps[..|name|], labels) == name && Shown([Tagged(name)], labels) == labels[name]
  {
    SpelledShows(ps[..|name|], name, labels);
    OneShown(Tagged(name), labels);
  }

  lemma {:induction false} SpelledShows(ps: seq<Piece>, name: string, labels: Labelling)
    requires |ps| == |name| && forall i :: 0 <= i < |name| ==> ps[i] == Kept(name[i])
    ensures InLabels(ps, labels) && Shown(ps, labels) == name
    decreases |ps|
  {
    if ps != [] {
      SpelledShows(ps[1..], name[1..], labels);
      assert name == [name[0]] + name[1..];
    }
  }

  lemma {:induction false} ShownConcat(a: seq<Piece>, b: seq<Piece>, labels: Labelling)
    requires InLabels(a, labels) && InLabels(b, labels)
    ensures InLabels(a + b, labels) && Shown(a + b, labels) == Shown(a, labels) + Shown(b, labels)
    decreases |a|
  {
    if a == [] {
      assert a + b == b;
    } else {
      assert (a + b)[1..] == a[1..] + b;
      ShownConcat(a[1..], b, labels);
    }
  }

  lemma LabelsOfTail(ps: seq<Piece>, n: nat, labels: Labelling)
    requires n <= |ps| && InLabels(ps, labels)
    ensures InLabels(ps[n..], labels) && (ps != [] && ps[0].Tagged? ==> ps[0].name in labels)
  {
  }

  // ---- What is tagged was a whole token when its pass came ----

  predicate Before(order: seq<string>, x: string, y: string) {
    exists i, j :: 0 <= i < j < |order| && order[i] == x && order[j] == y
  }

  /**
   * `p` stands directly in front of `q`: a label has no name character beside it in the
   * source, unless it is one that an earlier pass had already replaced.
   */
  predicate Fits(p: Piece, q: Piece, order: seq<string>) {
    && (q.Tagged? ==> if p.Kept? then !IsNameChar(p.c) else !EndsNamed(p.name) || Before(order, p.name, q.name))
    && (p.Tagged? ==> if q.Kept? then !IsNameChar(q.c) else !StartsNamed(q.name) || Before(order, q.name, p.name))
  }

  /** The pieces behind `p`. */
  predicate Marked(p: Piece, ps: seq<Piece>, order: seq<string>)
    decreases |ps|
  {
    ps == [] || (Fits(p, ps[0], order) && Marked(ps[0], ps[1..], order))
  }

  /** All that is tagged is one of the names passed over. */
  predicate TagsFrom(ps: seq<Piece>, order: seq<string>) {
    forall i :: 0 <= i < |ps| && ps[i].Tagged? ==> ps[i].name in order
  }

  lemma BeforeLater(order: seq<string>, name: string)
    ensures forall x, y :: Before(order, x, y) ==> Before(order + [name], x, y)
    ensures forall x :: x in order ==> Before(order + [name], x, name)
  {
    var all := order + [name];
    forall x, y | Before(order, x, y) ensures Before(all, x, y) {
      var i, j :| 0 <= i < j < |order| && order[i] == x && order[j] == y;
      assert all[i] == x && all[j] == y;
    }
    forall x | x in order ensures Before(all, x, name) {
      var i :| 0 <= i < |order| && order[i] == x;
      assert all[i] == x && all[|order|] == name;
    }
  }

  /** Where a pass has come to: `was` is the piece in front, and `now` what it has made of it. */
  predicate Follows(was: Piece, now: Piece, ps: seq<Piece>, name: string) {
    now == was || (now == Tagged(name) && name != "" && was == Kept(name[|name| - 1]) && Ends(ps))
  }

  lemma {:induction false} TagPassMarks(was: Piece, now: Piece, ps: seq<Piece>, name: string, order: seq<string>)
    requires name != "" && Follows(was, now, ps, name) && Marked(was, ps, order) && TagsFrom([was] + ps, order)
    ensures Marked(now, TagPass(RunsOn(was), ps, name), order + [name])
    decreases |ps|
  {
    hide Spelled, TagPass, Marked, Fits, TagsFrom;
    var inRun, all := RunsOn(was), order + [name];
    if ps == [] {
      TagNothing(inRun, name);
      MarkedStep(now, [], all);
    } else {
      TagStep(inRun, ps, name);
      MarkedStep(was, ps, order);
      TagsTail(was, ps, order);
      if Spelled(ps, name) {
        SpelledSplits(ps, name);
        var n, rest := |name|, ps[|name|..];
        MarkedFrom(was, ps, n, order);
        TagsLater([was] + ps, n, order);
        assert ([was] + ps)[n..] == [ps[n - 1]] + rest;
        SpelledEnd(ps, name);
        if Stands(inRun, ps, name) {
          TagPassMarks(ps[n - 1], Tagged(name), rest, name, order);
          NewTagFits(was, now, ps, name, order);
          MarkedStep(now, [Tagged(name)] + TagPass(EndsNamed(name), rest, name), all);
        } else {
          TagPassMarks(ps[n - 1], ps[n - 1], rest, name, order);
          OldFits(was, now, ps, name, order);
          KeptMarked(now, ps[..n], TagPass(EndsNamed(name), rest, name), all);
        }
      } else {
        TagPassMarks(ps[0], ps[0], ps[1..], name, order);
        OldFits(was, now, ps, name, order);
        MarkedStep(now, [ps[0]] + TagPass(RunsOn(ps[0]), ps[1..], name), all);
      }
    }
  }

  lemma SpelledEnd(ps: seq<Piece>, name: string)
    requires name != "" && Spelled(ps, name)
    ensures |name| <= |ps| && ps[0] == Kept(name[0]) && ps[|name| - 1] == Kept(name[|name| - 1])
  {
  }

  lemma MarkedStep(p: Piece, ps: seq<Piece>, order: seq<string>)
    ensures ps == [] ==> Marked(p, ps, order)
    ensures ps != [] ==> (Marked(p, ps, order) <==> Fits(p, ps[0], order) && Marked(ps[0], ps[1..], order))
  {
  }

  lemma TagsTail(p: Piece, ps: seq<Piece>, order: seq<string>)
    requires ps != [] && TagsFrom([p] + ps, order)
    ensures TagsFrom([ps[0]] + ps[1..], order) && (p.Tagged? ==> p.name in order) && (ps[0].Tagged? ==> ps[0].name in order)
  {
    assert [ps[0]] + ps[1..] == ps && ([p] + ps)[0] == p;
    assert forall i :: 0 <= i < |ps| ==> ([p] + ps)[i + 1] == ps[i];
  }

  lemma TagsLater(ps: seq<Piece>, n: nat, order: seq<string>)
    requires n <= |ps| && TagsFrom(ps, order)
    ensures TagsFrom(ps[n..], order)
  {
  }

  lemma {:induction false} MarkedFrom(p: Piece, ps: seq<Piece>, n: nat, order: seq<string>)
    requires 0 < n <= |ps| && Marked(p, ps, order)
    ensures Marked(ps[n - 1], ps[n..], order)
    decreases n
  {
    if n > 1 {
      MarkedFrom(ps[0], ps[1..], n - 1, order);
      assert ps[1..][n - 1..] == ps[n..];
    }
  }

  lemma NewTagFits(was: Piece, now: Piece, ps: seq<Piece>, name: string, order: seq<string>)
    requires Follows(was, now, ps, name) && Stands(RunsOn(was), ps, name) && name != "" && ps != [] && Fits(was, ps[0], order)
    requires was.Tagged? ==> was.name in order
    ensures Fits(now, Tagged(name), order + [name])
  {
    BeforeLater(order, name);
    assert ps[0] == Kept(name[0]);
  }

  lemma OldFits(was: Piece, now: Piece, ps: seq<Piece>, name: string, order: seq<string>)
    requires Follows(was, now, ps, name) && ps != [] && Fits(was, ps[0], order) && (ps[0].Tagged? ==> ps[0].name in order)
    ensures Fits(now, ps[0], order + [name])
  {
    BeforeLater(order, name);
  }

  lemma {:induction false} KeptMarked(p: Piece, a: seq<Piece>, b: seq<Piece>, order: seq<string>)
    requires a != [] && (forall i :: 0 <= i < |a| ==> a[i].Kept?) && Fits(p, a[0], order) && Marked(a[|a| - 1], b, order)
    ensures Marked(p, a + b, order)
    decreases |a|
  {
    hide Marked;
    MarkedStep(p, a + b, order);
    assert (a + b)[0] == a[0] && (a + b)[1..] == a[1..] + b;
    if |a| == 1 {
      assert a[1..] + b == b;
    } else {
      KeptMarked(a[0], a[1..], b, order);
    }
  }

  lemma {:induction false} TagPassTags(inRun: bool, ps: seq<Piece>, name: string, order: seq<string>)
    requires TagsFrom(ps, order)
    ensures TagsFrom(TagPass(inRun, ps, name), order + [name])
    decreases |ps|
  {
    hide Stands, Spelled;
    if ps != [] && name != "" {
      if Spelled(ps, name) {
        SpelledSplits(ps, name);
        TagPassTags(EndsNamed(name), ps[|name|..], name, order);
      } else {
        TagPassTags(RunsOn(ps[0]), ps[1..], name, order);
      }
    }
  }

  // ---- The chain ----

  predicate InOrder(order: seq<string>, labels: Labelling) {
    forall i :: 0 <= i < |order| ==> order[i] in labels && order[i] != ""
  }

  ghost predicate AllSafe(order: seq<string>, labels: Labelling) {
    forall i :: 0 <= i < |order| ==> Safe(labels, order[i])
  }

  const START := Kept(' ')

  /**
   * For any names the text after the passes is the source with tokens replaced, each of
   * them whole when its pass came; no label is taken apart.
   */
  lemma {:induction false} ChainTags(s: string, order: seq<string>, labels: Labelling)
    requires AllPlain(order) && InOrder(order, labels) && AllSafe(order, labels)
    ensures var ps := Tagging(s, order);
      && InLabels(ps, labels) && Source(ps) == s && Shown(ps, labels) == Chain(s, order, labels)
      && TagsFrom(ps, order) && Marked(START, ps, order)
    decreases |order|
  {
    hide Safe, Marked, Shown, Source, InLabels, TagsFrom, TagPass, Pass, Replaced;
    if order == [] {
      UntouchedIs(s, labels);
      UntouchedMarks(START, s);
    } else {
      var before, n := order[..|order| - 1], order[|order| - 1];
      assert order == before + [n] && forall i :: 0 <= i < |before| ==> before[i] == order[i];
      ChainTags(s, before, labels);
      var was := Tagging(s, before);
      TagPassKeepsSource(false, was, n);
      PassTags(false, was, labels, n);
      var mid := Shown(was, labels);
      ReplacedIsPass(mid, n, labels[n], 0);
      assert mid[0..] == mid && !NameAt(mid, -1);
      TagPassTags(false, was, n, before);
      StartTags(was, before);
      TagPassMarks(START, START, was, n, before);
    }
  }

  lemma StartTags(ps: seq<Piece>, order: seq<string>)
    requires TagsFrom(ps, order)
    ensures TagsFrom([START] + ps, order) && RunsOn(START) == false
  {
  }

  lemma {:induction false} UntouchedMarks(p: Piece, s: string)
    requires p.Kept?
    ensures Marked(p, Untouched(s), []) && TagsFrom(Untouched(s), [])
    decreases |s|
  {
    if s != "" {
      UntouchedMarks(Kept(s[0]), s[1..]);
      assert Untouched(s)[1..] == Untouched(s[1..]);
    }
  }

  // ---- Names that do not overlap themselves: the pass finds all that stands ----

  /** Tags every token of `name` that stands. */
  function TagAll(inRun: bool, ps: seq<Piece>, name: string): seq<Piece>
    requires name != ""
    decreases |ps|
  {
    if ps == [] then []
    else if Stands(inRun, ps, name) then [Tagged(name)] + TagAll(EndsNamed(name), ps[|name|..], name)
    else [ps[0]] + TagAll(RunsOn(ps[0]), ps[1..], name)
  }

  lemma TagAllStep(inRun: bool, ps: seq<Piece>, n: string)
    requires n != "" && ps != []
    ensures Stands(inRun, ps, n) ==> |n| <= |ps| && TagAll(inRun, ps, n) == [Tagged(n)] + TagAll(EndsNamed(n), ps[|n|..], n)
    ensures !Stands(inRun, ps, n) ==> TagAll(inRun, ps, n) == [ps[0]] + TagAll(RunsOn(ps[0]), ps[1..], n)
  {
  }

  /** What precedes position `i`, behind a name character if `inRun`. */
  function RunAt(inRun: bool, ps: seq<Piece>, i: nat): bool
    requires i <= |ps|
  {
    if i == 0 then inRun else RunsOn(ps[i - 1])
  }

  lemma {:induction false} TagAllCopies(inRun: bool, ps: seq<Piece>, name: string, i: nat, m: nat)
    requires name != "" && i <= m <= |ps| && forall k :: i <= k < m ==> !Stands(RunAt(inRun, ps, k), ps[k..], name)
    ensures TagAll(RunAt(inRun, ps, i), ps[i..], name) == ps[i..m] + TagAll(RunAt(inRun, ps, m), ps[m..], name)
    decreases m - i
  {
    hide Stands, TagAll;
    if i < m {
      TagAllStep(RunAt(inRun, ps, i), ps[i..], name);
      TagAllCopies(inRun, ps, name, i + 1, m);
      assert ps[i..][1..] == ps[i + 1..] && ps[i..m] == [ps[i]] + ps[i + 1..m];
    } else {
      assert ps[i..m] == [];
    }
  }

  /** Inside an occurrence nothing stands. */
  lemma NoneStandsInside(inRun: bool, ps: seq<Piece>, name: string, i: nat)
    requires name != "" && SelfFree(name) && Spelled(ps, name) && 0 < i < |name|
    ensures !Stands(RunAt(inRun, ps, i), ps[i..], name)
  {
    if Spelled(ps[i..], name) {
      forall m | 0 <= m < |name| - i ensures name[i..][m] == name[..|name| - i][m] {
        assert ps[i..][m] == ps[i + m];
      }
      assert name[i..] == name[..|name| - i];
      assert !OverlapsAt(name, i);
    }
  }

  lemma {:induction false} TagPassIsAll(inRun: bool, ps: seq<Piece>, name: string)
    requires name != "" && SelfFree(name)
    ensures TagPass(inRun, ps, name) == TagAll(inRun, ps, name)
    decreases |ps|
  {
    hide Stands, Spelled, TagPass, SelfFree, TagAll;
    if ps == [] {
      TagNothing(inRun, name);
      AllNothing(inRun, name);
    } else {
      TagStep(inRun, ps, name);
      TagAllStep(inRun, ps, name);
      if Spelled(ps, name) {
        SpelledSplits(ps, name);
        TagPassIsAll(EndsNamed(name), ps[|name|..], name);
        if !Stands(inRun, ps, name) {
          assert ps[0..] == ps;
          forall i | 0 <= i < |name| ensures !Stands(RunAt(inRun, ps, i), ps[i..], name) {
            if i > 0 {
              NoneStandsInside(inRun, ps, name, i);
            }
          }
          TagAllCopies(inRun, ps, name, 0, |name|);
        }
      } else {
        TagPassIsAll(RunsOn(ps[0]), ps[1..], name);
      }
    }
  }

  lemma AllNothing(inRun: bool, name: string)
    requires name != ""
    ensures TagAll(inRun, [], name) == []
  {
  }

  // ---- A name once gone stays gone ----

  /** As far as tagging kept the pieces, it kept them as they were. */
  lemma {:induction false} KeptAsWas(inRun: bool, ps: seq<Piece>, name: string, n: nat)
    requires name != "" && n <= |TagAll(inRun, ps, name)| && n > 0
    requires forall i :: 0 <= i < n ==> TagAll(inRun, ps, name)[i].Kept?
    ensures n <= |ps| && TagAll(inRun, ps, name)[..n] == ps[..n]
    ensures TagAll(inRun, ps, name)[n..] == TagAll(RunsOn(ps[n - 1]), ps[n..], name)
    decreases n
  {
    hide TagAll;
    FirstKept(inRun, ps, name);
    var out, rest := TagAll(inRun, ps, name), TagAll(RunsOn(ps[0]), ps[1..], name);
    assert out[1..] == rest;
    if n > 1 {
      assert forall i :: 0 <= i < n - 1 ==> rest[i] == out[i + 1];
      KeptAsWas(RunsOn(ps[0]), ps[1..], name, n - 1);
      assert out[..n] == [out[0]] + rest[..n - 1] && ps[..n] == [ps[0]] + ps[1..][..n - 1];
      assert out[n..] == rest[n - 1..] && ps[1..][n - 1..] == ps[n..];
    } else {
      assert out[..1] == [out[0]] && ps[..1] == [ps[0]];
    }
  }

  lemma FirstKept(inRun: bool, ps: seq<Piece>, name: string)
    requires name != "" && TagAll(inRun, ps, name) != [] && TagAll(inRun, ps, name)[0].Kept?
    ensures ps != [] && TagAll(inRun, ps, name) == [ps[0]] + TagAll(RunsOn(ps[0]), ps[1..], name)
  {
    hide Stands;
  }

  /** A label of `other` never makes a token of `name` whole that was not. */
  predicate NoTouch(name: string, other: string) {
    && (!EndsNamed(name) ==> !StartsNamed(other))
    && (!StartsNamed(name) ==> !EndsNamed(other))
  }

  /** Where the tagging has come to: behind a label of `name` just put in, the text shows no name character any more. */
  predicate At(inRun: bool, now: bool, ps: seq<Piece>, name: string) {
    now == inRun || (!now && inRun == EndsNamed(name) && Ends(ps))
  }

  /** What stands after a pass stood before, and is not the name that was tagged. */
  lemma StoodBefore(inRun: bool, now: bool, ps: seq<Piece>, name: string, other: string)
    requires name != "" && other != "" && NoTouch(other, name) && At(inRun, now, ps, name)
    requires Stands(now, TagAll(inRun, ps, name), other)
    ensures Stands(inRun, ps, other) && other != name
  {
    hide TagAll;
    var out, n := TagAll(inRun, ps, name), |other|;
    KeptAsWas(inRun, ps, name, n);
    assert forall i :: 0 <= i < n ==> ps[..n][i] == out[..n][i];
    assert ps[0] == Kept(other[0]) && ps[n - 1] == Kept(other[n - 1]);
    EndsAsWas(EndsNamed(other), ps[n..], name);
    if other == name {
      StandingIsTagged(inRun, ps, name);
    }
  }

  lemma EndsAsWas(inRun: bool, ps: seq<Piece>, name: string)
    requires name != "" && (!inRun ==> !StartsNamed(name))
    ensures Ends(TagAll(inRun, ps, name)) ==> Ends(ps)
  {
  }

  lemma StandingIsTagged(inRun: bool, ps: seq<Piece>, name: string)
    requires name != "" && Stands(inRun, ps, name)
    ensures TagAll(inRun, ps, name) != [] && TagAll(inRun, ps, name)[0] == Tagged(name)
  {
  }

  lemma {:induction false} GoneStaysGone(inRun: bool, now: bool, ps: seq<Piece>, name: string, other: string)
    requires name != "" && other != "" && NoTouch(other, name) && At(inRun, now, ps, name)
    requires other == name || StandsNowhere(inRun, ps, other)
    ensures StandsNowhere(now, TagAll(inRun, ps, name), other)
    decreases |ps|
  {
    hide Stands, NoTouch, TagAll, StandsNowhere;
    if ps == [] {
      AllNothing(inRun, name);
      NowhereInNothing(now, other);
    } else {
      TagAllStep(inRun, ps, name);
      var out := TagAll(inRun, ps, name);
      NowhereStep(inRun, ps, other);
      if Stands(now, out, other) {
        StoodBefore(inRun, now, ps, name, other);
      }
      if Stands(inRun, ps, name) {
        StandsEnds(inRun, ps, name);
        if other != name {
          NowhereTail(inRun, ps, |name|, other);
        }
        GoneStaysGone(EndsNamed(name), false, ps[|name|..], name, other);
        NowhereCons(now, Tagged(name), TagAll(EndsNamed(name), ps[|name|..], name), other);
      } else {
        GoneStaysGone(RunsOn(ps[0]), RunsOn(ps[0]), ps[1..], name, other);
        NowhereCons(now, ps[0], TagAll(RunsOn(ps[0]), ps[1..], name), other);
      }
    }
  }

  lemma StandsEnds(inRun: bool, ps: seq<Piece>, name: string)
    requires name != "" && Stands(inRun, ps, name)
    ensures |name| <= |ps| && Ends(ps[|name|..]) && RunsOn(ps[|name| - 1]) == EndsNamed(name)
  {
  }

  lemma NowhereInNothing(inRun: bool, name: string)
    ensures StandsNowhere(inRun, [], name)
  {
  }

  lemma NowhereStep(inRun: bool, ps: seq<Piece>, name: string)
    requires ps != []
    ensures StandsNowhere(inRun, ps, name) <==> !Stands(inRun, ps, name) && StandsNowhere(RunsOn(ps[0]), ps[1..], name)
  {
  }

  lemma NowhereCons(inRun: bool, p: Piece, ps: seq<Piece>, name: string)
    requires !Stands(inRun, [p] + ps, name) && StandsNowhere(RunsOn(p), ps, name)
    ensures StandsNowhere(inRun, [p] + ps, name)
  {
    assert ([p] + ps)[1..] == ps;
  }

  lemma {:induction false} NowhereTail(inRun: bool, ps: seq<Piece>, n: nat, other: string)
    requires 0 < n <= |ps| && StandsNowhere(inRun, ps, other)
    ensures StandsNowhere(RunsOn(ps[n - 1]), ps[n..], other)
    decreases n
  {
    hide Stands;
    if n > 1 {
      NowhereTail(RunsOn(ps[0]), ps[1..], n - 1, other);
      assert ps[1..][n - 1..] == ps[n..];
    }
  }

  lemma {:induction false} NowhereIsUntagged(inRun: bool, ps: seq<Piece>, name: string)
    requires name != "" && StandsNowhere(inRun, ps, name)
    ensures TagPass(inRun, ps, name) == ps
    decreases |ps|
  {
    hide Stands, Spelled, TagPass, StandsNowhere;
    if ps == [] {
      TagNothing(inRun, name);
    } else {
      TagStep(inRun, ps, name);
      NowhereStep(inRun, ps, name);
      if Spelled(ps, name) {
        SpelledSplits(ps, name);
        NowhereTail(inRun, ps, |name|, name);
        NowhereIsUntagged(EndsNamed(name), ps[|name|..], name);
      } else {
        NowhereIsUntagged(RunsOn(ps[0]), ps[1..], name);
      }
    }
  }

  /** What stands nowhere in the pieces is no whole token of the text that shows them. */
  lemma NoneLeft(ps: seq<Piece>, labels: Labelling, n: string, j: int)
    requires Plain(n) && SelfFree(n) && n in labels && Safe(labels, n) && InLabels(ps, labels) && StandsNowhere(false, ps, n)
    ensures !WholeToken(Shown(ps, labels), n, j)
  {
    hide SelfFree, Shown, StandsNowhere, InLabels, Scan, Pass, Replaced;
    NowhereIsUntagged(false, ps, n);
    PassTags(false, ps, labels, n);
    SafeIsBracketed(labels, n);
    var out := Shown(ps, labels);
    assert out[0..] == out && !NameAt(out, -1);
    ReplacedIsPass(out, n, labels[n], 0);
    PassIsScan(out, n, labels[n], 0);
    if 0 <= j <= |out| {
      UnchangedHasNone(out, n, labels[n], 0, j);
    }
  }

  predicate AllSelfFree(names: seq<string>) { forall i :: 0 <= i < |names| ==> SelfFree(names[i]) }

  /** No label makes a token whole of a name whose pass is over, or that it is the label of. */
  predicate EndsFit(order: seq<string>) { forall i, j :: 0 <= i <= j < |order| ==> NoTouch(order[i], order[j]) }

  lemma {:induction false} NoneStands(s: string, order: seq<string>, i: nat)
    requires AllPlain(order) && AllSelfFree(order) && EndsFit(order) && i < |order|
    ensures StandsNowhere(false, Tagging(s, order), order[i])
    decreases |order|
  {
    hide StandsNowhere, NoTouch, SelfFree, TagPass;
    var m := |order| - 1;
    var before, n := order[..m], order[m];
    var was := Tagging(s, before);
    TagPassIsAll(false, was, n);
    if i < m {
      NoneStands(s, before, i);
      assert before[i] == order[i];
    }
    GoneStaysGone(false, false, was, n, order[i]);
  }
}
