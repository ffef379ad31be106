// internal/business/redact.go:189-221: one pass of replaceToken for a name of any
// characters: which names it never misses.

module RedactPass {
  import opened Text
  import opened Redact

  /** No two whole tokens of the name can overlap: where its end is also its beginning, a name character stands in front. */
  predicate SelfFree(name: string) {
    forall p :: 0 < p < |name| ==> !OverlapsAt(name, p)
  }

  /** The loop comes to look at the occurrence at `j`. */
  predicate Visits(s: string, name: string, from: nat, j: int)
    requires from <= |s| && name != ""
    decreases |s| - from
  {
    var i := Index(s, name, from);
    i >= 0 && (i == j || Visits(s, name, i + |name|, j))
  }

  /** A whole token that starts inside an occurrence shows the name overlapping itself. */
  lemma Overlap(s: string, name: string, j: nat, k: nat)
    requires OccursAt(s, name, j) && WholeToken(s, name, k) && j < k < j + |name|
    ensures OverlapsAt(name, k - j)
  {
    var p := k - j;
    assert name[p..] == s[j..j + |name|][p..] == s[k..k + |name|][..|name| - p];
    assert s[k - 1] == s[j..j + |name|][p - 1];
  }

  lemma {:induction false} SelfFreeIsVisited(s: string, name: string, from: nat, j: int)
    requires name != "" && SelfFree(name) && from <= |s| && from <= j && WholeToken(s, name, j)
    ensures Visits(s, name, from, j)
    decreases |s| - from
  {
    var i := Index(s, name, from);
    assert 0 <= i <= j;
    if i < j {
      if j < i + |name| {
        Overlap(s, name, i, j);
        assert false;
      }
      SelfFreeIsVisited(s, name, i + |name|, j);
    }
  }

  /**
   * The text that makes the pass step over a token: behind a run of name characters
   * the name up to its overlap, and then the name.
   */
  function Trap(run: string, name: string, p: nat): string
    requires p <= |name|
  {
    run + name[..p] + name
  }

  /** The name overlaps itself at `p`, behind a character that is no name character. */
  predicate OverlapsAt(name: string, p: int) {
    0 < p < |name| && name[p..] == name[..|name| - p] && !IsNameChar(name[p - 1])
  }

  lemma TrapHolds(run: string, name: string, p: nat)
    requires OverlapsAt(name, p) && run != ""
    ensures var s := Trap(run, name, p);
      && |s| == |run| + p + |name| && OccursAt(s, name, |run|) && OccursAt(s, name, |run| + p)
      && (forall i :: 0 <= i < |run| ==> s[i] == run[i]) && s[|run| + p - 1] == name[p - 1]
  {
    var s, r := Trap(run, name, p), |run|;
    assert s[r + p..] == name && s[r..r + p] == name[..p];
    assert s[r..r + |name|] == name[..p] + name[..|name| - p];
    assert name == name[..p] + name[p..];
    assert s[r..r + p][p - 1] == s[r + p - 1];
  }

  /** The first character that is no name character comes too late for an earlier occurrence. */
  lemma TrapStart(run: string, name: string, p: nat, j: nat)
    requires OverlapsAt(name, p) && AllNameChars(run) && run != "" && j < |run|
    ensures !OccursAt(Trap(run, name, p), name, j)
  {
    var s, f := Trap(run, name, p), RunLength(name);
    TrapHolds(run, name, p);
    RunEnds(name, p - 1);
    forall i | |run| <= i < |run| + f ensures IsNameChar(s[i]) {
      assert s[|run|..|run| + |name|][i - |run|] == name[..f][i - |run|];
    }
    OccursShows(s, name, j, f);
  }

  lemma RunEnds(s: string, i: nat)
    requires i < |s| && !IsNameChar(s[i])
    ensures RunLength(s) <= i
  {
    var n := RunLength(s);
    assert forall k :: 0 <= k < n ==> s[..n][k] == s[k];
  }

  lemma OccursShows(s: string, name: string, j: nat, i: nat)
    requires i < |name| && j + |name| <= |s|
    ensures OccursAt(s, name, j) ==> s[j + i] == name[i]
  {
    assert s[j..j + |name|][i] == s[j + i];
  }

  /** The token at the end is not visited, and the pass leaves the text as it is. */
  lemma TrapSkips(run: string, name: string, p: nat, tag: string)
    requires OverlapsAt(name, p) && AllNameChars(run) && run != ""
    ensures var s := Trap(run, name, p);
      WholeToken(s, name, |run| + p) && !Visits(s, name, 0, |run| + p) && Replaced(s, name, tag, 0) == s
  {
    hide Trap;
    var s, r := Trap(run, name, p), |run|;
    TrapHolds(run, name, p);
    forall j | 0 <= j < r ensures !OccursAt(s, name, j) {
      TrapStart(run, name, p, j);
    }
    assert Index(s, name, 0) == r && Index(s, name, r + |name|) == -1;
    assert NameAt(s, r - 1) && !WholeToken(s, name, r);
    assert s == s[0..r] + s[r..r + |name|] + s[r + |name|..];
  }

  /** One pass looks at every whole token of every text if and only if the name cannot overlap itself as one. */
  lemma PassMissesNothingIff(name: string)
    requires name != ""
    ensures (forall s, j :: WholeToken(s, name, j) ==> Visits(s, name, 0, j)) <==> SelfFree(name)
  {
    if SelfFree(name) {
      forall s, j | WholeToken(s, name, j) ensures Visits(s, name, 0, j) {
        SelfFreeIsVisited(s, name, 0, j);
      }
    } else {
      var p: nat :| OverlapsAt(name, p);
      TrapSkips("a", name, p, "");
    }
  }

  const DOTTED := "a.a"

  lemma DottedOverlaps()
    ensures OverlapsAt(DOTTED, 2) && DOTTED[..2] == "a."
  {
    assert DOTTED[2..] == DOTTED[..1] && !IsNameChar(DOTTED[1]);
  }

  /** The least name of this kind: the token at 3 of "aa.a.a" stays, although it stands between name-free characters. */
  lemma DottedNameLeaks(tag: string)
    ensures var s := "a" + "a." + DOTTED;
      WholeToken(s, DOTTED, 3) && !Visits(s, DOTTED, 0, 3) && Replaced(s, DOTTED, tag, 0) == s
    ensures !SelfFree(DOTTED)
  {
    hide Replaced, WholeToken, Visits;
    DottedOverlaps();
    TrapSkips("a", DOTTED, 2, tag);
  }

  // ---- The pass as the loop makes it ----

  /** The name is at the front of `s`. */
  predicate Leads(s: string, name: string) { |name| <= |s| && s[..|name|] == name }

  /** Every occurrence is stepped over, and replaced if it is a whole token. */
  function Pass(inRun: bool, s: string, name: string, tag: string): string
    requires name != ""
    decreases |s|
  {
    if s == "" then ""
    else if Leads(s, name) then
      (if StartsToken(inRun, s, name) then tag else name) + Pass(IsNameChar(name[|name| - 1]), s[|name|..], name, tag)
    else [s[0]] + Pass(IsNameChar(s[0]), s[1..], name, tag)
  }

  lemma {:induction false} PassCopies(s: string, name: string, tag: string, i: nat, j: nat)
    requires name != "" && i <= j <= |s| && forall k :: i <= k < j ==> !OccursAt(s, name, k)
    ensures Pass(NameAt(s, i - 1), s[i..], name, tag) == s[i..j] + Pass(NameAt(s, j - 1), s[j..], name, tag)
    decreases j - i
  {
    hide Pass, Leads, OccursAt, NameAt;
    if i < j {
      LeadsThere(s, name, i);
      PassHead(NameAt(s, i - 1), s[i..], name, tag);
      PassCopies(s, name, tag, i + 1, j);
      HeadThere(s, i, j, Pass(NameAt(s, j - 1), s[j..], name, tag));
    } else {
      assert s[i..j] == "";
    }
  }

  lemma PassHead(inRun: bool, s: string, name: string, tag: string)
    requires name != "" && s != "" && !Leads(s, name)
    ensures Pass(inRun, s, name, tag) == [s[0]] + Pass(IsNameChar(s[0]), s[1..], name, tag)
  {
  }

  /** The first character of what is copied from `i` up to `j`. */
  lemma HeadThere(s: string, i: nat, j: nat, rest: string)
    requires i < j <= |s|
    ensures s[i..] != "" && s[i..][0] == s[i] && s[i..][1..] == s[i + 1..] && NameAt(s, i) == IsNameChar(s[i])
    ensures s[i..j] + rest == [s[i]] + (s[i + 1..j] + rest)
  {
    assert s[i..j] == [s[i]] + s[i + 1..j];
  }

  lemma LeadsThere(s: string, name: string, j: nat)
    requires j <= |s|
    ensures Leads(s[j..], name) <==> OccursAt(s, name, j)
  {
    if |name| <= |s| - j {
      assert s[j..][..|name|] == s[j..j + |name|];
    }
  }

  /** For any name the search by offsets is that pass. */
  lemma {:induction false} ReplacedIsPass(s: string, name: string, tag: string, from: nat)
    requires name != "" && from <= |s|
    ensures Replaced(s, name, tag, from) == Pass(NameAt(s, from - 1), s[from..], name, tag)
    decreases |s| - from
  {
    hide Replaced, Pass, WholeToken, OccursAt, Leads, StartsToken;
    var j := Index(s, name, from);
    ReplacedStep(s, name, tag, from);
    if j < 0 {
      PassCopies(s, name, tag, from, |s|);
      PassNothing(NameAt(s, |s| - 1), name, tag);
      assert s[|s|..] == "" && s[from..|s|] == s[from..] && s[from..] + "" == s[from..];
    } else {
      PassCopies(s, name, tag, from, j);
      PassOccurrence(s, name, tag, j);
      ReplacedIsPass(s, name, tag, j + |name|);
      Assoc(s[from..j], if WholeToken(s, name, j) then tag else name, Replaced(s, name, tag, j + |name|));
    }
  }

  lemma PassNothing(inRun: bool, name: string, tag: string)
    requires name != ""
    ensures Pass(inRun, "", name, tag) == ""
  {
  }

  lemma PassOccurrence(s: string, name: string, tag: string, j: nat)
    requires name != "" && OccursAt(s, name, j)
    ensures Pass(NameAt(s, j - 1), s[j..], name, tag) ==
            (if WholeToken(s, name, j) then tag else name) + Pass(NameAt(s, j + |name| - 1), s[j + |name|..], name, tag)
  {
    hide WholeToken, StartsToken;
    TokenStarts(s, name, j);
    LeadsThere(s, name, j);
    var next := j + |name|;
    assert s[j..next] == name && s[j..][|name|..] == s[next..] && s[next - 1] == name[|name| - 1];
  }

  // ---- The pass, character by character ----

  /** A whole token starts `s`, which has a name character in front of it if `inRun`. */
  predicate StartsToken(inRun: bool, s: string, name: string) {
    !inRun && |name| <= |s| && s[..|name|] == name && (|name| < |s| ==> !IsNameChar(s[|name|]))
  }

  /** Every whole token that does not start inside another is replaced. */
  function Scan(inRun: bool, s: string, name: string, tag: string): string
    requires name != ""
    decreases |s|
  {
    if s == "" then ""
    else if StartsToken(inRun, s, name) then tag + Scan(IsNameChar(name[|name| - 1]), s[|name|..], name, tag)
    else [s[0]] + Scan(IsNameChar(s[0]), s[1..], name, tag)
  }

  lemma TokenStarts(s: string, name: string, j: nat)
    requires j <= |s|
    ensures WholeToken(s, name, j) <==> StartsToken(NameAt(s, j - 1), s[j..], name)
  {
    if |name| <= |s| - j {
      assert s[j..][..|name|] == s[j..j + |name|];
    }
  }

  lemma {:induction false} ScanCopies(s: string, name: string, tag: string, i: nat, j: nat)
    requires name != "" && i <= j <= |s| && forall k :: i <= k < j ==> !WholeToken(s, name, k)
    ensures Scan(NameAt(s, i - 1), s[i..], name, tag) == s[i..j] + Scan(NameAt(s, j - 1), s[j..], name, tag)
    decreases j - i
  {
    hide Scan, WholeToken, StartsToken, NameAt;
    if i < j {
      TokenStarts(s, name, i);
      ScanStep(NameAt(s, i - 1), s[i..], name, tag);
      ScanCopies(s, name, tag, i + 1, j);
      HeadThere(s, i, j, Scan(NameAt(s, j - 1), s[j..], name, tag));
    } else {
      assert s[i..j] == "";
    }
  }

  lemma ScanStep(inRun: bool, s: string, name: string, tag: string)
    requires name != "" && s != ""
    ensures !StartsToken(inRun, s, name) ==> Scan(inRun, s, name, tag) == [s[0]] + Scan(IsNameChar(s[0]), s[1..], name, tag)
    ensures StartsToken(inRun, s, name) ==>
      |name| <= |s| && Scan(inRun, s, name, tag) == tag + Scan(IsNameChar(name[|name| - 1]), s[|name|..], name, tag)
  {
  }

  /** For a name that cannot overlap itself the loop is that scan: no whole token is left out. */
  lemma {:induction false} PassIsScan(s: string, name: string, tag: string, from: nat)
    requires name != "" && SelfFree(name) && from <= |s|
    ensures Replaced(s, name, tag, from) == Scan(NameAt(s, from - 1), s[from..], name, tag)
    decreases |s| - from
  {
    hide Replaced, Scan, WholeToken, SelfFree;
    var j := Index(s, name, from);
    ReplacedStep(s, name, tag, from);
    NoTokenBefore(s, name, from);
    if j < 0 {
      ScanCopies(s, name, tag, from, |s|);
      ScanNothing(NameAt(s, |s| - 1), name, tag);
      assert s[|s|..] == "" && s[from..|s|] == s[from..] && s[from..] + "" == s[from..];
    } else {
      ScanCopies(s, name, tag, from, j);
      ScanOccurrence(s, name, tag, j);
      PassIsScan(s, name, tag, j + |name|);
      Assoc(s[from..j], if WholeToken(s, name, j) then tag else name, Replaced(s, name, tag, j + |name|));
    }
  }

  /** In a text with one whole token it is that one that is replaced. */
  lemma OnlyOneReplaced(s: string, name: string, tag: string, j: nat)
    requires name != "" && SelfFree(name) && WholeToken(s, name, j)
    requires forall k :: 0 <= k < |s| && k != j ==> !WholeToken(s, name, k)
    ensures j + |name| <= |s| && Replaced(s, name, tag, 0) == s[..j] + tag + s[j + |name|..]
  {
    hide Scan, SelfFree, Replaced, WholeToken, NameAt, OccursAt;
    AtToken(s, name, j);
    AtStart(s);
    PassIsScan(s, name, tag, 0);
    ScanCopies(s, name, tag, 0, j);
    ScanOccurrence(s, name, tag, j);
    ScanRest(s, name, tag, j + |name|);
    assert s[0..j] == s[..j];
    Assoc(s[..j], tag, s[j + |name|..]);
  }

  lemma ScanRest(s: string, name: string, tag: string, e: nat)
    requires name != "" && e <= |s| && forall k :: e <= k < |s| ==> !WholeToken(s, name, k)
    ensures Scan(NameAt(s, e - 1), s[e..], name, tag) == s[e..]
  {
    hide Scan, WholeToken, NameAt;
    ScanCopies(s, name, tag, e, |s|);
    ScanNothing(NameAt(s, |s| - 1), name, tag);
    assert s[e..|s|] == s[e..] && s[|s|..] == "" && s[e..] + "" == s[e..];
  }

  lemma AtToken(s: string, name: string, j: nat)
    requires WholeToken(s, name, j)
    ensures OccursAt(s, name, j) && j + |name| <= |s|
  {
  }

  lemma AtStart(s: string)
    ensures !NameAt(s, -1) && s[0..] == s
  {
  }

  lemma ScanNothing(inRun: bool, name: string, tag: string)
    requires name != ""
    ensures Scan(inRun, "", name, tag) == ""
  {
  }

  lemma ScanOccurrence(s: string, name: string, tag: string, j: nat)
    requires name != "" && SelfFree(name) && OccursAt(s, name, j)
    ensures Scan(NameAt(s, j - 1), s[j..], name, tag) ==
            (if WholeToken(s, name, j) then tag else name) + Scan(NameAt(s, j + |name| - 1), s[j + |name|..], name, tag)
  {
    hide WholeToken, StartsToken, SelfFree;
    TokenStarts(s, name, j);
    var next := j + |name|;
    assert s[j..next] == name && s[j..][|name|..] == s[next..] && s[next - 1] == name[|name| - 1];
    if !WholeToken(s, name, j) {
      NoneInside(s, name, j);
      ScanCopies(s, name, tag, j, next);
    }
  }

  lemma NoneInside(s: string, name: string, j: nat)
    requires SelfFree(name) && OccursAt(s, name, j)
    ensures forall k :: j < k < j + |name| ==> !WholeToken(s, name, k)
  {
    forall k | j < k < j + |name| ensures !WholeToken(s, name, k) {
      if WholeToken(s, name, k) {
        Overlap(s, name, j, k);
      }
    }
  }

  /** A scan that changes nothing found nothing, as its label cannot be taken for the name. */
  lemma {:induction false} UnchangedHasNone(s: string, name: string, tag: string, i: nat, j: nat)
    requires name != "" && tag != "" && tag[0] != name[0] && i <= j <= |s|
    requires Scan(NameAt(s, i - 1), s[i..], name, tag) == s[i..]
    ensures !WholeToken(s, name, j)
    decreases |s| - i
  {
    TokenStarts(s, name, i);
    if i < |s| {
      if i < j && !StartsToken(NameAt(s, i - 1), s[i..], name) {
        var rest := Scan(NameAt(s, i), s[i + 1..], name, tag);
        assert s[i..][1..] == s[i + 1..];
        assert ([s[i]] + rest)[1..] == rest;
        UnchangedHasNone(s, name, tag, i + 1, j);
      }
    }
  }

  /** And a text without whole tokens is left as it is, whatever the name. */
  lemma {:induction false} NoneIsUnchanged(s: string, name: string, tag: string, from: nat)
    requires name != "" && from <= |s| && forall j :: !WholeToken(s, name, j)
    ensures Replaced(s, name, tag, from) == s[from..]
    decreases |s| - from
  {
    hide WholeToken, Replaced, NameAt;
    ReplacedStep(s, name, tag, from);
    var j := Index(s, name, from);
    if j >= 0 {
      NoneIsUnchanged(s, name, tag, j + |name|);
      assert s[from..] == s[from..j] + s[j..j + |name|] + s[j + |name|..];
    }
  }
}
