// internal/business/redact.go:171-221: two names that touch in a text, and what the
// label of one does to the other.

module RedactTouch {
  import opened Text
  import opened Redact
  import opened RedactPass
  import opened RedactAlone
  import opened RedactPieces
  import opened RedactNames

  lemma ChainOfTwo(s: string, n: string, m: string, labels: Labelling)
    requires n != "" && m != "" && n in labels && m in labels
    ensures InOrder([n, m], labels) && Chain(s, [n, m], labels) == Replaced(Replaced(s, n, labels[n], 0), m, labels[m], 0)
  {
    hide Replaced;
    var one, two := [n], [n, m];
    assert two[..1] == one && one[..0] == [];
    assert Chain(s, one, labels) == Replaced(Chain(s, [], labels), n, labels[n], 0);
    assert Chain(s, two, labels) == Replaced(Chain(s, one, labels), m, labels[m], 0);
  }

  /** A text without a token of `n`, and one of `m`. */
  lemma OneOfTwo(s: string, n: string, m: string, labels: Labelling, j: nat)
    requires n != "" && m != "" && n in labels && m in labels && SelfFree(m)
    requires (forall q :: !WholeToken(s, n, q)) && WholeToken(s, m, j) && (forall q :: WholeToken(s, m, q) ==> q == j)
    ensures InOrder([n, m], labels) && j + |m| <= |s|
    ensures Chain(s, [n, m], labels) == s[..j] + labels[m] + s[j + |m|..]
  {
    hide Replaced, WholeToken, SelfFree, Chain;
    ChainOfTwo(s, n, m, labels);
    NoneIsUnchanged(s, n, labels[n], 0);
    assert s[0..] == s;
    OnlyOneReplaced(s, m, labels[m], j);
  }

  /**
   * A name that ends with no name character, right in front of one that starts with one,
   * is no token. The label of the other, put in by a later pass, makes it one.
   */
  lemma TouchLeaks(n: string, m: string, labels: Labelling)
    requires n != "" && m != "" && n in labels && m in labels && SelfFree(m) && !NameAt(labels[m], 0)
    requires !EndsNamed(n) && StartsNamed(m)
    requires (forall q :: !WholeToken(n + m, n, q)) && (forall q :: WholeToken(n + m, m, q) ==> q == |n|)
    ensures InOrder([n, m], labels) && Chain(n + m, [n, m], labels) == n + labels[m]
    ensures WholeToken(n + labels[m], n, 0)
  {
    hide SelfFree, Chain;
    var s, out := n + m, n + labels[m];
    assert s[|n|..] == s[|n|..|n| + |m|] == m && s[..|n|] == n && s[|n| + |m|..] == "" && s[|n| - 1] == n[|n| - 1];
    assert WholeToken(s, m, |n|);
    OneOfTwo(s, n, m, labels, |n|);
    assert out + "" == out && out[0..|n|] == n;
    assert labels[m] != "" ==> out[|n|] == labels[m][0];
  }

  /** And one that starts with no name character, right behind one that ends with one. */
  lemma TouchLeaksBehind(n: string, m: string, labels: Labelling)
    requires n != "" && m != "" && n in labels && m in labels && SelfFree(m) && !EndsNamed(labels[m])
    requires !StartsNamed(n) && EndsNamed(m)
    requires (forall q :: !WholeToken(m + n, n, q)) && (forall q :: WholeToken(m + n, m, q) ==> q == 0)
    ensures InOrder([n, m], labels) && Chain(m + n, [n, m], labels) == labels[m] + n
    ensures WholeToken(labels[m] + n, n, |labels[m]|)
  {
    hide SelfFree, Chain;
    var s, out := m + n, labels[m] + n;
    assert s[0..|m|] == m && s[|m|..] == n && s[..0] == "" && s[|m|] == n[0];
    assert WholeToken(s, m, 0);
    OneOfTwo(s, n, m, labels, 0);
    assert "" + labels[m] == labels[m] && out[|labels[m]|..|labels[m]| + |n|] == n;
    assert labels[m] != "" ==> out[|labels[m]| - 1] == labels[m][|labels[m]| - 1];
  }

  /** The least such pair: prod. is left in "prod.eu". */
  lemma OpenEndLeaks()
    ensures var labels := map["prod." := Marker(2), "eu" := Marker(1)];
      && InOrder(["prod.", "eu"], labels)
      && Chain("prod.eu", ["prod.", "eu"], labels) == "prod." + Marker(1)
      && WholeToken("prod." + Marker(1), "prod.", 0)
  {
    hide Core;
    var n, m, labels := "prod.", "eu", map["prod." := Marker(2), "eu" := Marker(1)];
    assert "prod." + "eu" == "prod.eu";
    ProdOrEu();
    TouchLeaks(n, m, labels);
  }

  lemma ProdOrEu()
    ensures SelfFree("eu") && (forall q :: !WholeToken("prod.eu", "prod.", q)) && (forall q :: WholeToken("prod.eu", "eu", q) ==> q == 5)
  {
    var s := "prod.eu";
    forall q | 0 <= q <= 2 ensures !WholeToken(s, "prod.", q) {
      assert s[q..q + 5][0] == s[q];
    }
    forall q | 0 <= q < 5 ensures !OccursAt(s, "eu", q) {
      assert s[q..q + 2][0] == s[q];
    }
  }

  // ---- Exactly which pairs ----

  /** A pair whose first name has open ends and is no larger token of the second has only the touching tokens. */
  lemma PairTokens(n: string, m: string)
    requires n != "" && m != "" && n != m && |m| <= |n| && SelfFree(n) && SelfFree(m) && !EndsNamed(n) && StartsNamed(m)
    requires forall q :: !WholeToken(n, m, q)
    ensures (forall q :: !WholeToken(n + m, n, q)) && (forall q :: WholeToken(n + m, m, q) ==> q == |n|)
  {
    hide SelfFree;
    var s := n + m;
    assert s[0..|n|] == n && s[|n|..|n| + |m|] == m && s[|n|] == m[0] && s[|n| - 1] == n[|n| - 1];
    assert WholeToken(s, m, |n|) && OccursAt(s, n, 0);
    NoneInside(s, n, 0);
    forall q ensures !WholeToken(s, n, q) {
      assert q == |n| ==> |m| <= |n|;
    }
    forall q | WholeToken(s, m, q) ensures q == |n| {
      if q < |n| < q + |m| {
        Overlap(s, m, q, |n|);
        SelfFreeNot(m, |n| - q);
      } else if q < |n| {
        TokenInFront(n, m, q);
      }
    }
  }

  lemma TokenInFront(n: string, m: string, q: int)
    requires 0 <= q && q + |m| <= |n| && WholeToken(n + m, m, q)
    ensures WholeToken(n, m, q)
  {
    assert (n + m)[q..q + |m|] == n[q..q + |m|];
  }

  lemma SelfFreeNot(name: string, p: int)
    requires SelfFree(name)
    ensures !OverlapsAt(name, p)
  {
  }

  /** A whole token of a whole token, away from its ends, is one of the text. */
  lemma TokenOfToken(s: string, n: string, j: int, m: string, q: int)
    requires WholeToken(s, n, j) && WholeToken(n, m, q) && 0 < q && q + |m| < |n|
    ensures WholeToken(s, m, j + q)
  {
    forall i | 0 <= i < |m| ensures s[j + q..j + q + |m|][i] == m[i] {
      assert s[j..j + |n|][q..q + |m|][i] == n[q..q + |m|][i];
    }
    assert s[j + q - 1] == s[j..j + |n|][q - 1] && s[j + q + |m|] == s[j..j + |n|][q + |m|];
  }

  lemma LastIsGone(s: string, n: string, m: string, labels: Labelling, j: int)
    requires Plain(n) && Plain(m) && SelfFree(m) && SameEnds(m)
    requires InOrder([n, m], labels) && AllSafe([n, m], labels)
    ensures !WholeToken(Chain(s, [n, m], labels), m, j)
  {
    hide Plain, SelfFree, Shown, Source, InLabels, StandsNowhere, Safe, WholeToken, TagsFrom, Marked, TagPass, Chain;
    var order := [n, m];
    assert order[..1] == [n] && order[1] == m && order[0] == n;
    ChainTags(s, order, labels);
    var was := Tagging(s, [n]);
    PlainIs(m);
    TagPassIsAll(false, was, m);
    GoneStaysGone(false, false, was, m, m);
    NoneLeft(Tagging(s, order), labels, m, j);
  }

  /**
   * Two names that are each redacted right alone, the longer first: none is left in any
   * text if and only if their ends fit, or the second is a whole token of the first.
   */
  lemma PairIff(n: string, m: string, labels: Labelling)
    requires Plain(n) && Plain(m) && n != m && |m| <= |n| && SelfFree(n) && SelfFree(m) && SameEnds(n) && SameEnds(m)
    requires n in labels && m in labels && InOrder([n, m], labels) && AllSafe([n, m], labels)
    ensures (forall s, x, j :: x in [n, m] ==> !WholeToken(Chain(s, [n, m], labels), x, j))
       <==> NoTouch(n, m) || exists q :: 0 <= q < |n| && WholeToken(n, m, q)
  {
    hide Plain, SelfFree, Safe, Chain, WholeToken;
    PlainIs(n);
    PlainIs(m);
    if NoTouch(n, m) {
      assert EndsFit([n, m]);
      forall s ensures forall x, j :: x in [n, m] ==> !WholeToken(Chain(s, [n, m], labels), x, j) {
        NoneOf(s, [n, m], labels);
      }
    } else if q :| 0 <= q < |n| && WholeToken(n, m, q) {
      InnerOnly(n, m, q);
      forall s, x, j | x in [n, m] ensures !WholeToken(Chain(s, [n, m], labels), x, j) {
        LastIsGone(s, n, m, labels, j);
        LastIsGone(s, n, m, labels, j + q);
        if WholeToken(Chain(s, [n, m], labels), n, j) {
          TokenOfToken(Chain(s, [n, m], labels), n, j, m, q);
        }
      }
    } else {
      NowhereWhole(n, m);
      PairTokens(n, m);
      assert [n, m][0] == n;
      SafeStarts(labels, n, m);
      TouchLeaks(n, m, labels);
      assert n in [n, m] && WholeToken(Chain(n + m, [n, m], labels), n, 0);
    }
  }

  lemma InnerOnly(n: string, m: string, q: int)
    requires n != "" && m != "" && SameEnds(n) && SameEnds(m) && !NoTouch(n, m) && WholeToken(n, m, q)
    ensures 0 < q && q + |m| < |n|
  {
    assert n[q..q + |m|][0] == n[q] && n[q..q + |m|][|m| - 1] == n[q + |m| - 1];
  }

  lemma NowhereWhole(n: string, m: string)
    requires m != "" && forall q :: 0 <= q < |n| ==> !WholeToken(n, m, q)
    ensures forall q :: !WholeToken(n, m, q)
  {
  }

  lemma SafeStarts(labels: Labelling, n: string, x: string)
    requires Safe(labels, n) && x in labels
    ensures !NameAt(labels[x], 0)
  {
    SafeIsBracketed(labels, n);
  }
}
