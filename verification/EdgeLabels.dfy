// internal/services/clusterResourceServices.go:680-691,757-792: what a merged edge
// says: the texts of the edges drawn as one, and how they are shortened.

module EdgeLabels {
  import opened Text
  import opened ResourceGraph

  /** The `j`-th pending edge is shown under `id` and says `t`. */
  ghost predicate Says(s: Setup, j: nat, id: string, t: string)
    requires j < |s.pending|
  {
    Shown(s, j) && s.pending[j].id == id && s.pending[j].text == t
  }

  /** `a` is said under `id` before `b` ever is. */
  ghost predicate SaidBefore(s: Setup, k: nat, id: string, a: string, b: string)
    requires k <= |s.pending|
  {
    exists j :: 0 <= j < k && Says(s, j, id, a) && forall i :: 0 <= i <= j ==> !Says(s, i, id, b)
  }

  /** The texts said under `id` by the first `k` pending edges, each once, in the order they are first said. */
  ghost predicate TextsSaid(s: Setup, k: nat, id: string, parts: seq<string>)
    requires k <= |s.pending|
  {
    && (forall t :: t in parts <==> t != "" && exists j :: 0 <= j < k && Says(s, j, id, t))
    && (forall a, b :: 0 <= a < b < |parts| ==> parts[a] != parts[b] && SaidBefore(s, k, id, parts[a], parts[b]))
  }

  lemma SaidLater(s: Setup, k: nat, id: string, a: string, b: string)
    requires k < |s.pending| && SaidBefore(s, k, id, a, b)
    ensures SaidBefore(s, k + 1, id, a, b)
  {
  }

  lemma {:induction false} PartsAreTexts(s: Setup, k: nat, id: string)
    requires k <= |s.pending|
    ensures TextsSaid(s, k, id, Parts(s, k, id))
  {
    hide Shown, TextsSaid, Parts, AppendUnique;
    if k == 0 {
      NothingSaid(s, id);
    } else {
      PartsAreTexts(s, k - 1, id);
      NextTexts(s, k - 1, id, Parts(s, k - 1, id));
      NextPart(s, k - 1, id);
    }
  }

  lemma NothingSaid(s: Setup, id: string)
    ensures TextsSaid(s, 0, id, Parts(s, 0, id))
  {
  }

  lemma NextPart(s: Setup, k: nat, id: string)
    requires k < |s.pending|
    ensures var before, e := Parts(s, k, id), s.pending[k];
      Parts(s, k + 1, id) == if Shown(s, k) && e.id == id && e.text != "" then AppendUnique(before, e.text) else before
  {
    hide Shown, AppendUnique;
  }

  lemma NextTexts(s: Setup, k: nat, id: string, before: seq<string>)
    requires k < |s.pending| && TextsSaid(s, k, id, before)
    ensures var e := s.pending[k];
      TextsSaid(s, k + 1, id, if Shown(s, k) && e.id == id && e.text != "" then AppendUnique(before, e.text) else before)
  {
    hide Shown, SaidBefore;
    var e := s.pending[k];
    var after := if Shown(s, k) && e.id == id && e.text != "" then AppendUnique(before, e.text) else before;
    forall t ensures t in after <==> t != "" && exists j :: 0 <= j < k + 1 && Says(s, j, id, t) {
      assert Says(s, k, id, t) <==> Shown(s, k) && e.id == id && e.text == t;
    }
    forall a, b | 0 <= a < b < |after| ensures after[a] != after[b] && SaidBefore(s, k + 1, id, after[a], after[b]) {
      if b < |before| {
        SaidLater(s, k, id, before[a], before[b]);
      } else {
        NewIsLast(s, k, id, before, a);
      }
    }
  }

  /** A text not said so far comes behind all that are. */
  lemma NewIsLast(s: Setup, k: nat, id: string, before: seq<string>, a: nat)
    requires k < |s.pending| && TextsSaid(s, k, id, before) && a < |before| && s.pending[k].text !in before && s.pending[k].text != ""
    ensures SaidBefore(s, k + 1, id, before[a], s.pending[k].text)
  {
    hide Shown;
    assert before[a] in before;
    var j :| 0 <= j < k && Says(s, j, id, before[a]);
    assert forall i :: 0 <= i <= j ==> !Says(s, i, id, s.pending[k].text);
  }

  /** The label: up to two texts in full, of more the first two and how many others there are. */
  predicate Reads(says: string, parts: seq<string>) {
    match |parts|
    case 0 => says == ""
    case 1 => says == parts[0]
    case 2 => says == parts[0] + ", " + parts[1]
    case n => says == parts[0] + ", " + parts[1] + " +" + Decimal(n - 2)
  }

  lemma CappedReads(parts: seq<string>)
    ensures Reads(CapLabel(parts), parts)
  {
    assert |parts| > 2 ==> parts[..2][0] == parts[0] && parts[..2][1] == parts[1] && |parts[..2]| == 2;
    JoinTwo(parts);
    JoinTwo(parts[..if |parts| < 2 then |parts| else 2]);
  }

  lemma JoinTwo(parts: seq<string>)
    ensures |parts| == 0 ==> Join(parts) == ""
    ensures |parts| == 1 ==> Join(parts) == parts[0]
    ensures |parts| == 2 ==> Join(parts) == parts[0] + ", " + parts[1]
  {
    if |parts| == 2 {
      assert parts[..1] == [parts[0]];
    }
  }

  /** A drawn edge says what the pending edges shown under its id say, shortened. */
  lemma EdgeSaysAll(s: Setup, g: Graph, i: nat)
    requires Resolved(s, g) && i < |g.edges|
    ensures exists parts :: TextsSaid(s, |s.pending|, g.edges[i].id, parts) && Reads(g.edges[i].text, parts)
  {
    hide Indexed, Shown, Drawn, Placeholders, Broken, Leaves, TextsSaid, CapLabel, Reads, Parts;
    var n := |s.pending|;
    var id := s.pending[FirstShown(s, n)[i]].id;
    PartsAreTexts(s, n, id);
    CappedReads(Parts(s, n, id));
  }
}
