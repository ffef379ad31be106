/**
 Building the resource graph (internal/services/clusterResourceServices.go): nodes
 with an index, pending edges, and their resolution once every node exists.
 */
module ResourceGraph {
  import opened Options
  import opened Text
  import opened Ids

  datatype Level = NoLevel | Warn | Err

  function Rank(l: Level): nat {
    match l case NoLevel => 0 case Warn => 1 case Err => 2
  }

  /** An issue's parameters, as resolveEdges sets them. */
  datatype Params = NoParams | RefParams(kind: string, name: string)

  datatype Issue = Issue(level: Level, code: string, params: Params)

  datatype Node = Node(id: string, kind: string, name: string, namespace: string, missing: bool, issues: seq<Issue>)

  datatype Edge = Edge(id: string, source: string, target: string, kind: string, text: string, optional: bool,
                       issue: Option<Issue>)

  /** a outranks b; no issue ranks below all. */
  predicate Worse(a: Option<Issue>, b: Option<Issue>) {
    a.Some? && (b.None? || Rank(a.value.level) > Rank(b.value.level))
  }

  const NO_ISSUE := Issue(NoLevel, "", NoParams)

  /** w is the first issue of the highest rank, or no issue when none has a rank. */
  ghost predicate IsWorst(issues: seq<Issue>, w: Issue) {
    if forall k :: 0 <= k < |issues| ==> issues[k].level.NoLevel? then w == NO_ISSUE
    else exists k ::
      && 0 <= k < |issues| && issues[k] == w
      && (forall j :: 0 <= j < |issues| ==> Rank(issues[j].level) <= Rank(w.level))
      && (forall j :: 0 <= j < k ==> Rank(issues[j].level) < Rank(w.level))
  }

  function WorstOf(issues: seq<Issue>): Issue {
    if issues == [] then NO_ISSUE
    else
      var w := WorstOf(issues[..|issues| - 1]);
      if Rank(issues[|issues| - 1].level) > Rank(w.level) then issues[|issues| - 1] else w
  }

  lemma {:induction false} WorstOfIsWorst(issues: seq<Issue>)
    ensures IsWorst(issues, WorstOf(issues))
  {
    if issues != [] {
      var n := |issues| - 1;
      WorstOfIsWorst(issues[..n]);
      WorstMore(issues, n, WorstOf(issues[..n]));
    }
  }

  lemma WorstMore(issues: seq<Issue>, n: nat, w: Issue)
    requires n + 1 == |issues| && IsWorst(issues[..n], w)
    ensures IsWorst(issues, if Rank(issues[n].level) > Rank(w.level) then issues[n] else w)
  {
    assert forall k :: 0 <= k < n ==> issues[..n][k] == issues[k];
    if Rank(issues[n].level) > Rank(w.level) {
      assert forall j :: 0 <= j < n ==> Rank(issues[j].level) <= Rank(w.level);
    } else if exists k :: 0 <= k < n && !issues[k].level.NoLevel? {
      var k :| 0 <= k < n && issues[..n][k] == w && forall j :: 0 <= j < k ==> Rank(issues[..n][j].level) < Rank(w.level);
      assert issues[k] == w;
    }
  }

  method WorstIssue(issues: seq<Issue>) returns (w: Issue)
    ensures w == WorstOf(issues)
  {
    w := NO_ISSUE;
    for k := 0 to |issues|
      invariant w == WorstOf(issues[..k])
    {
      assert issues[..k + 1][..k] == issues[..k];
      if Rank(issues[k].level) > Rank(w.level) {
        w := issues[k];
      }
    }
    assert issues[..|issues|] == issues;
  }

  // ---------------------------------------------------------------- labels

  const LABEL_LIMIT := 2

  function Join(parts: seq<string>): string {
    if parts == [] then "" else if |parts| == 1 then parts[0]
    else Join(parts[..|parts| - 1]) + ", " + parts[|parts| - 1]
  }

  function CapLabel(parts: seq<string>): string {
    if |parts| <= LABEL_LIMIT then Join(parts)
    else Join(parts[..LABEL_LIMIT]) + " +" + Decimal(|parts| - LABEL_LIMIT)
  }

  function AppendUnique(parts: seq<string>, p: string): seq<string> {
    if p in parts then parts else parts + [p]
  }

  // ---------------------------------------------------------------- nodes

  datatype Graph = Graph(nodes: seq<Node>, index: map<string, nat>, edges: seq<Edge>)

  /** Node ids are unique and the index agrees with the positions. */
  ghost predicate Indexed(g: Graph) {
    && (forall i :: 0 <= i < |g.nodes| ==> g.nodes[i].id in g.index && g.index[g.nodes[i].id] == i)
    && (forall id :: id in g.index ==> g.index[id] < |g.nodes| && g.nodes[g.index[id]].id == id)
  }

  function AddNode(g: Graph, n: Node): Graph {
    if n.id in g.index then g
    else g.(index := g.index[n.id := |g.nodes|], nodes := g.nodes + [n])
  }

  predicate HasIssue(issues: seq<Issue>, it: Issue) {
    exists k :: 0 <= k < |issues| && issues[k].code == it.code && issues[k].params == it.params
  }

  function Noted(n: Node, it: Issue): Node {
    if HasIssue(n.issues, it) then n else n.(issues := n.issues + [it])
  }

  function AddIssue(g: Graph, id: string, it: Issue): (r: Graph)
    requires Indexed(g)
  {
    if id !in g.index then g else g.(nodes := g.nodes[g.index[id] := Noted(g.nodes[g.index[id]], it)])
  }

  function At(g: Graph, id: string): Node
    requires Indexed(g) && id in g.index
  {
    g.nodes[g.index[id]]
  }

  lemma AddNodeKeeps(g: Graph, n: Node)
    requires Indexed(g)
    ensures var r := AddNode(g, n);
            && Indexed(r) && r.edges == g.edges && r.index.Keys == g.index.Keys + {n.id}
            && g.nodes <= r.nodes
            && (forall id :: id in g.index ==> r.index[id] == g.index[id] && At(r, id) == At(g, id))
            && (n.id !in g.index ==> At(r, n.id) == n)
  {
  }

  lemma AddIssueKeeps(g: Graph, id: string, it: Issue)
    requires Indexed(g)
    ensures var r := AddIssue(g, id, it);
            && Indexed(r) && r.edges == g.edges && r.index == g.index && |r.nodes| == |g.nodes|
            && (forall x :: x in g.index ==> At(r, x) == if x == id then Noted(At(g, x), it) else At(g, x))
  {
    if id in g.index {
      var r := AddIssue(g, id, it);
      assert forall i :: 0 <= i < |g.nodes| ==> r.nodes[i].id == g.nodes[i].id;
    }
  }

  // ---------------------------------------------------------------- resolving the pending edges

  const KUBE_ROOT_CA := "kube-root-ca.crt"

  /** The builder when resolveEdges is called: the drawn objects, what is pending, the
      edge ids whose target may be absent, and the kinds that were listed in full. */
  datatype Setup = Setup(base: Graph, pending: seq<Edge>, optional: set<string>, checkable: set<string>)

  predicate CheckedKind(kind: string) {
    kind == "config" || kind == "storage" || kind == "ingress"
  }

  /** If the edge's target is absent, the edge is shown broken. */
  predicate Breakable(s: Setup, e: Edge) {
    var p := ParseResourceId(e.target);
    p.Parsed? && CheckedKind(e.kind) && p.kind in s.checkable && !(p.kind == "ConfigMap" && p.name == KUBE_ROOT_CA)
  }

  function LevelOf(s: Setup, e: Edge): Level {
    if e.id in s.optional then Warn else Err
  }

  function RefIssue(s: Setup, e: Edge): Issue
    requires Breakable(s, e)
  {
    var p := ParseResourceId(e.target);
    Issue(LevelOf(s, e), if e.id in s.optional then "optionalRefMissing" else "missingRef", RefParams(p.kind, p.name))
  }

  function Placeholder(id: string): Node
    requires ParseResourceId(id).Parsed?
  {
    var p := ParseResourceId(id);
    Node(id, p.kind, p.name, p.namespace, true, [])
  }

  /** resolveEdges' variables. */
  datatype Acc = Acc(g: Graph, missing: set<string>, at: map<string, nat>, parts: map<string, seq<string>>)

  /** The target is absent and that is a fault: a placeholder, once, and the issues. */
  function Break(s: Setup, acc: Acc, e: Edge): (r: Acc)
    requires Indexed(acc.g) && Breakable(s, e)
  {
    var absent := e.target !in acc.g.index;
    AddNodeKeeps(acc.g, Placeholder(e.target));
    var g1 := if absent then AddNode(acc.g, Placeholder(e.target)) else acc.g;
    AddIssueKeeps(g1, e.target, Issue(LevelOf(s, e), "notFound", NoParams));
    var g2 := AddIssue(g1, e.target, Issue(LevelOf(s, e), "notFound", NoParams));
    acc.(g := AddIssue(g2, e.source, RefIssue(s, e)),
         missing := if absent then acc.missing + {e.target} else acc.missing)
  }

  /** The edge is drawn, or merged into the one already drawn under its id. */
  function Merge(s: Setup, acc: Acc, e: Edge): Acc
    requires forall id :: id in acc.at ==> acc.at[id] < |acc.g.edges|
  {
    if e.id in acc.at then
      var i := acc.at[e.id];
      var old' := acc.g.edges[i];
      acc.(parts := if e.text == "" then acc.parts
                    else acc.parts[e.id := AppendUnique(if e.id in acc.parts then acc.parts[e.id] else [], e.text)],
           g := if Worse(e.issue, old'.issue)
                then acc.g.(edges := acc.g.edges[i := old'.(issue := e.issue)]) else acc.g)
    else
      acc.(at := acc.at[e.id := |acc.g.edges|],
           parts := if e.text == "" then acc.parts else acc.parts[e.id := [e.text]],
           g := acc.g.(edges := acc.g.edges + [e.(optional := e.id in s.optional)]))
  }

  ghost predicate Sane(acc: Acc) {
    Indexed(acc.g) && forall id :: id in acc.at ==> acc.at[id] < |acc.g.edges|
  }

  /** One pending edge. */
  function Process(s: Setup, acc: Acc, e: Edge): Acc
    requires Sane(acc)
  {
    if e.source !in acc.g.index then acc
    else if e.target !in acc.g.index || e.target in acc.missing then
      if !Breakable(s, e) then acc
      else
        var broken := Break(s, acc, e);
        BreakKeeps(s, acc, e);
        Merge(s, broken, e.(issue := Some(RefIssue(s, e))))
    else Merge(s, acc, e)
  }

  /** What a broken reference leaves behind. */
  lemma BreakKeeps(s: Setup, acc: Acc, e: Edge)
    requires Indexed(acc.g) && Breakable(s, e)
    ensures var r := Break(s, acc, e);
            && Indexed(r.g) && r.g.edges == acc.g.edges && r.at == acc.at && r.parts == acc.parts
            && r.g.index.Keys == acc.g.index.Keys + {e.target}
            && r.missing == acc.missing + (if e.target in acc.g.index then {} else {e.target})
            && (forall id :: id in acc.g.index ==> r.g.index[id] == acc.g.index[id])
  {
    AddNodeKeeps(acc.g, Placeholder(e.target));
    var g1 := if e.target in acc.g.index then acc.g else AddNode(acc.g, Placeholder(e.target));
    AddIssueKeeps(g1, e.target, Issue(LevelOf(s, e), "notFound", NoParams));
    var g2 := AddIssue(g1, e.target, Issue(LevelOf(s, e), "notFound", NoParams));
    AddIssueKeeps(g2, e.source, RefIssue(s, e));
  }

  // ---------------------------------------------------------------- what the resolved graph is

  /** The targets that have become placeholders after k pending edges: absent, breakable,
      and named by an edge whose source was drawn by then. */
  ghost function Placeholders(s: Setup, k: nat): set<string>
    requires k <= |s.pending|
  {
    if k == 0 then {}
    else
      var before, e := Placeholders(s, k - 1), s.pending[k - 1];
      if Drawn(s, before, e.source) && e.target !in s.base.index && Breakable(s, e) then before + {e.target}
      else before
  }

  ghost predicate Drawn(s: Setup, placeholders: set<string>, id: string) {
    id in s.base.index || id in placeholders
  }

  /** The k-th pending edge is shown: its source is drawn, and so is its target, as an
      object or as a placeholder. */
  ghost predicate Shown(s: Setup, k: nat)
    requires k < |s.pending|
  {
    var e := s.pending[k];
    Drawn(s, Placeholders(s, k), e.source) && (e.target in s.base.index || Breakable(s, e))
  }

  ghost predicate HasId(s: Setup, shown: seq<nat>, id: string)
    requires forall i :: 0 <= i < |shown| ==> shown[i] < |s.pending|
  {
    exists i :: 0 <= i < |shown| && s.pending[shown[i]].id == id
  }

  /** The first shown edge of every id: positions in the pending list, in order. */
  ghost function FirstShown(s: Setup, k: nat): (r: seq<nat>)
    requires k <= |s.pending|
    ensures forall i :: 0 <= i < |r| ==> r[i] < k && Shown(s, r[i])
    ensures forall i, j :: 0 <= i < j < |r| ==> s.pending[r[i]].id != s.pending[r[j]].id
  {
    if k == 0 then []
    else
      var before := FirstShown(s, k - 1);
      if Shown(s, k - 1) && !HasId(s, before, s.pending[k - 1].id) then before + [k - 1] else before
  }

  /** The distinct texts of the shown edges with this id, in order. */
  ghost function Parts(s: Setup, k: nat, id: string): seq<string>
    requires k <= |s.pending|
  {
    if k == 0 then []
    else
      var before, e := Parts(s, k - 1, id), s.pending[k - 1];
      if Shown(s, k - 1) && e.id == id && e.text != "" then AppendUnique(before, e.text) else before
  }

  /** How an edge is drawn: broken exactly when its target is a placeholder. */
  ghost function DrawnEdge(s: Setup, e: Edge): Edge {
    e.(optional := e.id in s.optional,
       issue := if e.target in s.base.index || !Breakable(s, e) then e.issue else Some(RefIssue(s, e)))
  }

  /** What the constructors guarantee: no edge is pending with an issue of its own, and
      an edge id determines both ends (EdgeIdInjective). */
  ghost predicate FromConstructors(s: Setup) {
    && Indexed(s.base) && s.base.edges == []
    && (forall k :: 0 <= k < |s.pending| ==> s.pending[k].issue.None?)
    && (forall j, k :: 0 <= j < |s.pending| && 0 <= k < |s.pending| && s.pending[j].id == s.pending[k].id ==>
          s.pending[j].target == s.pending[k].target)
  }

  /** An edge as the source builds it: its id is printed from its ends, and the first holds no '>'. */
  predicate Built(e: Edge) { e.issue.None? && e.id == EdgeId(e.source, e.target) && '>' !in e.source }

  /** Edges built so qualify. */
  lemma BuiltEdgesQualify(s: Setup)
    requires Indexed(s.base) && s.base.edges == []
    requires forall k :: 0 <= k < |s.pending| ==> Built(s.pending[k])
    ensures FromConstructors(s)
  {
    forall j, k | 0 <= j < |s.pending| && 0 <= k < |s.pending| && s.pending[j].id == s.pending[k].id
      ensures s.pending[j].target == s.pending[k].target
    {
      EdgeIdInjective(s.pending[j].source, s.pending[j].target, s.pending[k].source, s.pending[k].target);
    }
  }

  ghost predicate NodesResolved(s: Setup, k: nat, acc: Acc)
    requires k <= |s.pending|
  {
    && Indexed(acc.g)
    && acc.missing == Placeholders(s, k) && acc.missing !! s.base.index.Keys
    && acc.g.index.Keys == s.base.index.Keys + acc.missing
    && (forall id :: id in s.base.index ==> acc.g.index[id] == s.base.index[id])
  }

  ghost predicate EdgesResolved(s: Setup, k: nat, acc: Acc)
    requires k <= |s.pending|
  {
    var first := FirstShown(s, k);
    && |acc.g.edges| == |first|
    && (forall i :: 0 <= i < |first| ==> acc.g.edges[i] == DrawnEdge(s, s.pending[first[i]]))
    && (forall i :: 0 <= i < |first| ==> s.pending[first[i]].id in acc.at && acc.at[s.pending[first[i]].id] == i)
    && (forall id :: id in acc.at ==> acc.at[id] < |first| && s.pending[first[acc.at[id]]].id == id)
  }

  ghost predicate PartsResolved(s: Setup, k: nat, acc: Acc)
    requires k <= |s.pending|
  {
    && (forall id :: id in acc.parts ==> acc.parts[id] == Parts(s, k, id) && acc.parts[id] != [] && id in acc.at)
    && (forall id :: id !in acc.parts ==> Parts(s, k, id) == [])
  }

  lemma MergeKeepsNodes(s: Setup, acc: Acc, e: Edge)
    requires Sane(acc)
    ensures var r := Merge(s, acc, e);
            && r.g.nodes == acc.g.nodes && r.g.index == acc.g.index && r.missing == acc.missing
            && Indexed(r.g)
  {
  }

  lemma NodesStep(s: Setup, k: nat, acc: Acc)
    requires FromConstructors(s) && k < |s.pending| && Sane(acc)
    requires NodesResolved(s, k, acc)
    ensures NodesResolved(s, k + 1, Process(s, acc, s.pending[k]))
  {
    hide Merge, Break, Breakable, RefIssue, Indexed, Placeholders;
    var e := s.pending[k];
    PlaceholdersStep(s, k);
    if Breakable(s, e) {
      BreakKeeps(s, acc, e);
      MergeKeepsNodes(s, Break(s, acc, e), e.(issue := Some(RefIssue(s, e))));
    }
    MergeKeepsNodes(s, acc, e);
  }

  lemma PlaceholdersStep(s: Setup, k: nat)
    requires k < |s.pending|
    ensures var before, e := Placeholders(s, k), s.pending[k];
            Placeholders(s, k + 1) ==
            if Drawn(s, before, e.source) && e.target !in s.base.index && Breakable(s, e) then before + {e.target}
            else before
  {
  }

  lemma PartsStep(s: Setup, k: nat, acc: Acc, e: Edge)
    requires k < |s.pending| && Sane(acc) && Shown(s, k)
    requires PartsResolved(s, k, acc)
    requires e == s.pending[k].(issue := e.issue)
    ensures PartsResolved(s, k + 1, Merge(s, acc, e))
  {
    hide Parts, Shown, AppendUnique, Worse;
    forall id
      ensures Parts(s, k + 1, id) == if id == e.id && e.text != "" then AppendUnique(Parts(s, k, id), e.text)
                                     else Parts(s, k, id)
    {
      PartsMore(s, k, e, id);
    }
    AppendedPart(Parts(s, k, e.id), e.text);
  }

  lemma PartsMore(s: Setup, k: nat, e: Edge, id: string)
    requires k < |s.pending| && Shown(s, k) && e == s.pending[k].(issue := e.issue)
    ensures Parts(s, k + 1, id) == if id == e.id && e.text != "" then AppendUnique(Parts(s, k, id), e.text)
                                   else Parts(s, k, id)
  {
    hide Shown, AppendUnique;
  }

  lemma AppendedPart(parts: seq<string>, p: string)
    ensures AppendUnique(parts, p) != [] && AppendUnique([], p) == [p]
  {
  }

  /** Edges that share an id are drawn alike. */
  lemma SameId(s: Setup, j: nat, k: nat)
    requires FromConstructors(s) && j < |s.pending| && k < |s.pending| && Shown(s, j) && Shown(s, k)
    requires s.pending[j].id == s.pending[k].id
    ensures DrawnEdge(s, s.pending[j]).issue == DrawnEdge(s, s.pending[k]).issue
  {
  }

  lemma FirstShownStep(s: Setup, k: nat, acc: Acc)
    requires k < |s.pending| && Shown(s, k) && EdgesResolved(s, k, acc)
    ensures FirstShown(s, k + 1) ==
            if s.pending[k].id in acc.at then FirstShown(s, k) else FirstShown(s, k) + [k]
    ensures forall i :: 0 <= i < |FirstShown(s, k)| ==> FirstShown(s, k)[i] < k && Shown(s, FirstShown(s, k)[i])
  {
    var first, id := FirstShown(s, k), s.pending[k].id;
    assert HasId(s, first, id) <==> id in acc.at;
  }

  lemma EdgesStep(s: Setup, k: nat, acc: Acc, e: Edge)
    requires FromConstructors(s) && k < |s.pending| && Sane(acc) && Shown(s, k)
    requires EdgesResolved(s, k, acc)
    requires e == s.pending[k].(issue := DrawnEdge(s, s.pending[k]).issue)
    ensures EdgesResolved(s, k + 1, Merge(s, acc, e))
  {
    hide FirstShown, Shown, Breakable, RefIssue, FromConstructors, DrawnEdge, Indexed, EdgesResolved, Merge;
    KnownId(s, k, acc);
    if e.id in acc.at {
      SameId(s, FirstShown(s, k)[acc.at[e.id]], k);
      MergedEdge(s, k, acc, e);
    } else {
      NewEdge(s, k, acc, e);
    }
  }

  lemma KnownId(s: Setup, k: nat, acc: Acc)
    requires k < |s.pending| && EdgesResolved(s, k, acc)
    ensures s.pending[k].id in acc.at ==> acc.at[s.pending[k].id] < |FirstShown(s, k)|
    ensures s.pending[k].id in acc.at ==>
            var j := FirstShown(s, k)[acc.at[s.pending[k].id]];
            j < k && Shown(s, j) && s.pending[j].id == s.pending[k].id
  {
    hide FirstShown, Shown, DrawnEdge;
  }

  lemma MergedEdge(s: Setup, k: nat, acc: Acc, e: Edge)
    requires k < |s.pending| && Sane(acc) && Shown(s, k) && EdgesResolved(s, k, acc) && e.id in acc.at
    requires e == s.pending[k].(issue := DrawnEdge(s, s.pending[k]).issue)
    requires acc.at[e.id] < |FirstShown(s, k)| && FirstShown(s, k)[acc.at[e.id]] < |s.pending|
    requires DrawnEdge(s, s.pending[FirstShown(s, k)[acc.at[e.id]]]).issue == e.issue
    ensures EdgesResolved(s, k + 1, Merge(s, acc, e))
  {
    hide FirstShown, Shown, DrawnEdge;
    FirstShownStep(s, k, acc);
  }

  lemma NewEdge(s: Setup, k: nat, acc: Acc, e: Edge)
    requires k < |s.pending| && Sane(acc) && Shown(s, k) && EdgesResolved(s, k, acc) && e.id !in acc.at
    requires e == s.pending[k].(issue := DrawnEdge(s, s.pending[k]).issue)
    ensures EdgesResolved(s, k + 1, Merge(s, acc, e))
  {
    hide FirstShown, Shown, DrawnEdge, AppendUnique, Worse, Indexed, EdgesResolved;
    FirstShownStep(s, k, acc);
    DrawnIs(s, s.pending[k]);
    AddedEdge(s, k, acc, e, Merge(s, acc, e));
  }

  lemma AddedEdge(s: Setup, k: nat, acc: Acc, e: Edge, r: Acc)
    requires k < |s.pending| && EdgesResolved(s, k, acc) && e.id !in acc.at && e.id == s.pending[k].id
    requires FirstShown(s, k + 1) == FirstShown(s, k) + [k]
    requires r.g.edges == acc.g.edges + [DrawnEdge(s, s.pending[k])] && r.at == acc.at[e.id := |acc.g.edges|]
    ensures EdgesResolved(s, k + 1, r)
  {
    hide FirstShown, Shown, DrawnEdge;
  }

  lemma DrawnIs(s: Setup, e: Edge)
    ensures DrawnEdge(s, e) == e.(optional := e.id in s.optional, issue := DrawnEdge(s, e).issue)
  {
  }

  // ---------------------------------------------------------------- issues

  function NotFound(l: Level): Issue {
    Issue(l, "notFound", NoParams)
  }

  /** The level of the first reference that made t a placeholder. */
  ghost function FirstLevel(s: Setup, k: nat, t: string): Level
    requires k <= |s.pending|
  {
    if k == 0 then NoLevel
    else if t in Placeholders(s, k - 1) then FirstLevel(s, k - 1, t) else LevelOf(s, s.pending[k - 1])
  }

  /** The k-th pending edge is shown broken. */
  ghost predicate Broken(s: Setup, k: nat)
    requires k < |s.pending|
  {
    Shown(s, k) && s.pending[k].target !in s.base.index
  }

  /** A broken edge leaves t: a placeholder may itself name what is absent. */
  ghost predicate Leaves(s: Setup, k: nat, t: string)
    requires k <= |s.pending|
  {
    exists j :: 0 <= j < k && Broken(s, j) && s.pending[j].source == t
  }

  ghost predicate PlaceholderNoted(s: Setup, k: nat, n: Node, t: string)
    requires k <= |s.pending|
  {
    && t in Placeholders(s, k) && ParseResourceId(t).Parsed?
    && n.(issues := []) == Placeholder(t)
    && n.issues != [] && n.issues[0] == NotFound(FirstLevel(s, k, t))
    && (!Leaves(s, k, t) ==> |n.issues| == 1)
  }

  ghost predicate IssuesResolved(s: Setup, k: nat, acc: Acc)
    requires k <= |s.pending| && Indexed(s.base) && NodesResolved(s, k, acc)
  {
    && (forall t :: t in acc.missing ==> PlaceholderNoted(s, k, At(acc.g, t), t))
    && (forall id :: id in s.base.index ==>
          && At(acc.g, id).(issues := []) == At(s.base, id).(issues := [])
          && At(s.base, id).issues <= At(acc.g, id).issues)
    && (forall j :: 0 <= j < k && Broken(s, j) && s.pending[j].source in s.base.index ==>
          Breakable(s, s.pending[j]) && HasIssue(At(acc.g, s.pending[j].source).issues, RefIssue(s, s.pending[j])))
  }

  /** A broken reference, node by node. */
  function BreakNode(s: Setup, n: Node, e: Edge): Node
    requires Breakable(s, e)
  {
    var noted := if n.id == e.target then Noted(n, NotFound(LevelOf(s, e))) else n;
    if n.id == e.source then Noted(noted, RefIssue(s, e)) else noted
  }

  lemma BreakAt(s: Setup, acc: Acc, e: Edge, id: string)
    requires Indexed(acc.g) && Breakable(s, e) && e.source in acc.g.index
    requires id in acc.g.index || id == e.target
    ensures Indexed(Break(s, acc, e).g) && id in Break(s, acc, e).g.index
    ensures At(Break(s, acc, e).g, id) ==
            BreakNode(s, if id in acc.g.index then At(acc.g, id) else Placeholder(e.target), e)
  {
    hide AddNode, AddIssue, RefIssue, Noted, ParseResourceId, LevelOf, Indexed, At;
    AddNodeKeeps(acc.g, Placeholder(e.target));
    var g1 := if e.target in acc.g.index then acc.g else AddNode(acc.g, Placeholder(e.target));
    AddIssueKeeps(g1, e.target, NotFound(LevelOf(s, e)));
    var g2 := AddIssue(g1, e.target, NotFound(LevelOf(s, e)));
    AddIssueKeeps(g2, e.source, RefIssue(s, e));
    AtIs(g1, id);
    NotedKeepsId(At(g1, id), NotFound(LevelOf(s, e)));
  }

  lemma AtIs(g: Graph, id: string)
    requires Indexed(g) && id in g.index
    ensures At(g, id).id == id
  {
  }

  lemma NotedKeepsId(n: Node, it: Issue)
    ensures Noted(n, it).id == n.id
  {
  }

  lemma FirstLevelStep(s: Setup, k: nat)
    requires k < |s.pending|
    ensures forall t :: t in Placeholders(s, k) ==>
      t in Placeholders(s, k + 1) && FirstLevel(s, k + 1, t) == FirstLevel(s, k, t)
    ensures var t := s.pending[k].target;
            t in Placeholders(s, k + 1) && t !in Placeholders(s, k) ==> FirstLevel(s, k + 1, t) == LevelOf(s, s.pending[k])
  {
  }

  lemma LeavesStep(s: Setup, k: nat, t: string)
    requires k < |s.pending|
    ensures Leaves(s, k + 1, t) <==> Leaves(s, k, t) || (Broken(s, k) && s.pending[k].source == t)
  {
    if Leaves(s, k, t) {
      var j :| 0 <= j < k && Broken(s, j) && s.pending[j].source == t;
      assert 0 <= j < k + 1;
    }
  }

  lemma NotedPlaceholder(s: Setup, n: Node, e: Edge, l: Level)
    requires Breakable(s, e) && n.issues != [] && n.issues[0] == NotFound(l)
    ensures var r := BreakNode(s, n, e);
            && r.(issues := []) == n.(issues := []) && r.issues != [] && r.issues[0] == NotFound(l)
            && (n.id != e.source ==> r == n)
  {
    assert HasIssue(n.issues, NotFound(LevelOf(s, e)));
  }

  lemma NewPlaceholderNode(s: Setup, e: Edge)
    requires Breakable(s, e)
    ensures var r := BreakNode(s, Placeholder(e.target), e);
            && r.(issues := []) == Placeholder(e.target) && r.issues != [] && r.issues[0] == NotFound(LevelOf(s, e))
            && (e.source != e.target ==> r.issues == [NotFound(LevelOf(s, e))])
  {
  }

  /** A placeholder's first issue stays: a later reference finds notFound already there. */
  lemma PlaceholderStep(s: Setup, k: nat, n: Node, t: string)
    requires k < |s.pending| && PlaceholderNoted(s, k, n, t)
    requires Broken(s, k) && Breakable(s, s.pending[k])
    ensures PlaceholderNoted(s, k + 1, BreakNode(s, n, s.pending[k]), t)
  {
    hide Placeholders, FirstLevel, Leaves, Broken, Shown, Breakable, BreakNode, ParseResourceId;
    FirstLevelStep(s, k);
    LeavesStep(s, k, t);
    NotedPlaceholder(s, n, s.pending[k], FirstLevel(s, k, t));
    assert n.id == t;
  }

  lemma NewPlaceholder(s: Setup, k: nat)
    requires k < |s.pending| && Broken(s, k) && Breakable(s, s.pending[k])
    requires var e := s.pending[k]; e.target !in Placeholders(s, k) && e.source != e.target && !Leaves(s, k, e.target)
    ensures var e := s.pending[k];
            PlaceholderNoted(s, k + 1, BreakNode(s, Placeholder(e.target), e), e.target)
  {
    hide Placeholders, FirstLevel, Leaves, Shown, BreakNode, ParseResourceId, Breakable;
    BrokenIsPlaced(s, k);
    FirstLevelStep(s, k);
    LeavesStep(s, k, s.pending[k].target);
    NewPlaceholderNode(s, s.pending[k]);
  }

  lemma BrokenIsPlaced(s: Setup, k: nat)
    requires k < |s.pending| && Broken(s, k)
    ensures Breakable(s, s.pending[k]) && ParseResourceId(s.pending[k].target).Parsed?
    ensures Shown(s, k) && s.pending[k].target in Placeholders(s, k + 1)
  {
  }

  /** Nothing leaves an id before it is drawn. */
  lemma LeavesOnlyDrawn(s: Setup, k: nat, t: string)
    requires k <= |s.pending| && t !in s.base.index && t !in Placeholders(s, k)
    ensures !Leaves(s, k, t)
  {
    forall j | 0 <= j < k && Broken(s, j)
      ensures s.pending[j].source != t
    {
      PlaceholdersGrow(s, j, k);
    }
  }

  lemma {:induction false} PlaceholdersGrow(s: Setup, j: nat, k: nat)
    requires j <= k <= |s.pending|
    ensures Placeholders(s, j) <= Placeholders(s, k)
    decreases k - j
  {
    hide Drawn, Breakable;
    if j < k {
      PlaceholdersGrow(s, j, k - 1);
    }
  }

  /** What one pending edge does, said of the resolved graph so far. */
  lemma ProcessCases(s: Setup, k: nat, acc: Acc)
    requires FromConstructors(s) && k < |s.pending| && Sane(acc) && NodesResolved(s, k, acc)
    ensures var e := s.pending[k];
            Process(s, acc, e) ==
            if !Shown(s, k) then acc
            else if !Broken(s, k) then Merge(s, acc, e)
            else Merge(s, Break(s, acc, e), e.(issue := Some(RefIssue(s, e))))
    ensures var e := s.pending[k];
            && (Shown(s, k) && !Broken(s, k) ==> DrawnEdge(s, e).issue == e.issue)
            && (Broken(s, k) ==> DrawnEdge(s, e).issue == Some(RefIssue(s, e)) && e.source in acc.g.index)
  {
    hide Merge, Break, RefIssue;
  }

  lemma NotBrokenStep(s: Setup, k: nat)
    requires k < |s.pending| && !Broken(s, k)
    ensures Placeholders(s, k + 1) == Placeholders(s, k)
    ensures forall t :: t in Placeholders(s, k) ==> FirstLevel(s, k + 1, t) == FirstLevel(s, k, t)
  {
    FirstLevelStep(s, k);
  }

  lemma IssuesStep(s: Setup, k: nat, acc: Acc)
    requires FromConstructors(s) && k < |s.pending| && Sane(acc)
    requires NodesResolved(s, k, acc) && IssuesResolved(s, k, acc)
    ensures NodesResolved(s, k + 1, Process(s, acc, s.pending[k]))
    ensures IssuesResolved(s, k + 1, Process(s, acc, s.pending[k]))
  {
    hide Merge, Break, Breakable, Shown, Broken, Placeholders, FirstLevel, Process, RefIssue, HasIssue,
         Placeholder, ParseResourceId, Indexed, PlaceholderNoted;
    NodesStep(s, k, acc);
    if Broken(s, k) {
      BrokenStep(s, k, acc, Process(s, acc, s.pending[k]));
    } else {
      ProcessCases(s, k, acc);
      UnbrokenStep(s, k, acc);
      MergeKeepsNodes(s, acc, s.pending[k]);
    }
  }

  lemma BrokenStep(s: Setup, k: nat, acc: Acc, r: Acc)
    requires FromConstructors(s) && k < |s.pending| && Broken(s, k)
    requires NodesResolved(s, k, acc) && IssuesResolved(s, k, acc)
    requires Sane(acc) && r == Process(s, acc, s.pending[k]) && NodesResolved(s, k + 1, r)
    ensures IssuesResolved(s, k + 1, r)
  {
    hide Merge, Break, Breakable, Shown, Broken, Placeholders, FirstLevel, Process, RefIssue, HasIssue,
         Placeholder, ParseResourceId, Indexed, PlaceholderNoted, At, Leaves;
    ProcessCases(s, k, acc);
    var e := s.pending[k];
    var b := Break(s, acc, e);
    BrokenIsPlaced(s, k);
    BreakKeepsSane(s, acc, e);
    MergeKeepsNodes(s, b, e.(issue := Some(RefIssue(s, e))));
    forall id | id in b.g.index
      ensures At(b.g, id) == At(r.g, id)
    {
      SameNodesSameAt(b.g, r.g, id);
    }
    forall t | t in r.missing
      ensures PlaceholderNoted(s, k + 1, At(r.g, t), t)
    {
      PlaceholderAfterBreak(s, k, acc, t);
    }
    BaseAfterBreak(s, k, acc);
  }

  lemma SameNodesSameAt(g: Graph, h: Graph, id: string)
    requires Indexed(g) && Indexed(h) && g.nodes == h.nodes && g.index == h.index && id in g.index
    ensures At(g, id) == At(h, id)
  {
  }

  lemma UnbrokenStep(s: Setup, k: nat, acc: Acc)
    requires FromConstructors(s) && k < |s.pending| && !Broken(s, k)
    requires NodesResolved(s, k, acc) && IssuesResolved(s, k, acc)
    ensures NodesResolved(s, k + 1, acc) && IssuesResolved(s, k + 1, acc)
  {
    hide Breakable, Shown, Broken, Placeholders, FirstLevel, RefIssue, HasIssue, Placeholder, ParseResourceId, Indexed,
         Leaves;
    NotBrokenStep(s, k);
    forall t | t in acc.missing
      ensures Leaves(s, k + 1, t) <==> Leaves(s, k, t)
    {
      LeavesStep(s, k, t);
    }
  }

  lemma BaseAfterBreak(s: Setup, k: nat, acc: Acc)
    requires FromConstructors(s) && k < |s.pending| && Sane(acc)
    requires NodesResolved(s, k, acc) && IssuesResolved(s, k, acc)
    requires Broken(s, k) && Breakable(s, s.pending[k]) && s.pending[k].source in acc.g.index
    requires Indexed(Break(s, acc, s.pending[k]).g)
    ensures var g := Break(s, acc, s.pending[k]).g;
            && (forall id :: id in s.base.index ==>
                  && id in g.index
                  && At(g, id).(issues := []) == At(s.base, id).(issues := [])
                  && At(s.base, id).issues <= At(g, id).issues)
            && (forall j :: 0 <= j < k + 1 && Broken(s, j) && s.pending[j].source in s.base.index ==>
                  Breakable(s, s.pending[j]) && HasIssue(At(g, s.pending[j].source).issues, RefIssue(s, s.pending[j])))
  {
    hide Break, Breakable, Shown, Broken, Placeholders, FirstLevel, BreakNode, RefIssue, HasIssue,
         Placeholder, ParseResourceId, Indexed, PlaceholderNoted, Leaves, At;
    var e, g := s.pending[k], Break(s, acc, s.pending[k]).g;
    forall id | id in s.base.index
      ensures id in g.index && At(g, id) == BreakNode(s, At(acc.g, id), e)
      ensures At(g, id).(issues := []) == At(acc.g, id).(issues := [])
      ensures At(acc.g, id).issues <= At(g, id).issues
    {
      BreakAt(s, acc, e, id);
      BreakNodeKeeps(s, At(acc.g, id), e);
    }
    forall j | 0 <= j < k + 1 && Broken(s, j) && s.pending[j].source in s.base.index
      ensures Breakable(s, s.pending[j])
      ensures HasIssue(At(g, s.pending[j].source).issues, RefIssue(s, s.pending[j]))
    {
      BrokenIsPlaced(s, j);
      var id := s.pending[j].source;
      if j == k {
        AtIs(acc.g, id);
        SourceNoted(s, At(acc.g, id), e);
      } else {
        HasIssueLonger(At(acc.g, id).issues, At(g, id).issues, RefIssue(s, s.pending[j]));
      }
    }
  }

  lemma BreakKeepsSane(s: Setup, acc: Acc, e: Edge)
    requires Sane(acc) && Breakable(s, e)
    ensures Sane(Break(s, acc, e)) && Break(s, acc, e).g.index.Keys == acc.g.index.Keys + {e.target}
  {
    BreakKeeps(s, acc, e);
  }

  lemma BreakNodeKeeps(s: Setup, n: Node, e: Edge)
    requires Breakable(s, e)
    ensures BreakNode(s, n, e).(issues := []) == n.(issues := []) && n.issues <= BreakNode(s, n, e).issues
  {
  }

  lemma SourceNoted(s: Setup, n: Node, e: Edge)
    requires Breakable(s, e) && n.id == e.source
    ensures HasIssue(BreakNode(s, n, e).issues, RefIssue(s, e))
  {
    var r, it := BreakNode(s, n, e), RefIssue(s, e);
    var before := if n.id == e.target then Noted(n, NotFound(LevelOf(s, e))) else n;
    if !HasIssue(before.issues, it) {
      assert r.issues[|before.issues|] == it;
    }
  }

  lemma HasIssueLonger(a: seq<Issue>, b: seq<Issue>, it: Issue)
    requires a <= b && HasIssue(a, it)
    ensures HasIssue(b, it)
  {
    var k :| 0 <= k < |a| && a[k].code == it.code && a[k].params == it.params;
    assert b[k] == a[k];
  }

  lemma PlaceholderAfterBreak(s: Setup, k: nat, acc: Acc, t: string)
    requires FromConstructors(s) && k < |s.pending| && Sane(acc)
    requires NodesResolved(s, k, acc) && IssuesResolved(s, k, acc)
    requires Broken(s, k) && Breakable(s, s.pending[k]) && s.pending[k].source in acc.g.index
    requires t in acc.missing || t == s.pending[k].target
    ensures Indexed(Break(s, acc, s.pending[k]).g) && t in Break(s, acc, s.pending[k]).g.index
    ensures PlaceholderNoted(s, k + 1, At(Break(s, acc, s.pending[k]).g, t), t)
  {
    hide Break, Shown, Placeholders, FirstLevel, BreakNode, RefIssue, HasIssue, Placeholder, ParseResourceId,
         PlaceholderNoted, Leaves, Breakable;
    var e := s.pending[k];
    BreakAt(s, acc, e, t);
    if t in acc.missing {
      PlaceholderStep(s, k, At(acc.g, t), t);
    } else {
      LeavesOnlyDrawn(s, k, t);
      NewPlaceholder(s, k);
    }
  }

  // ---------------------------------------------------------------- the resolved graph

  ghost predicate Resolving(s: Setup, k: nat, acc: Acc)
    requires k <= |s.pending|
  {
    && FromConstructors(s) && Sane(acc)
    && NodesResolved(s, k, acc) && IssuesResolved(s, k, acc) && EdgesResolved(s, k, acc) && PartsResolved(s, k, acc)
  }

  lemma ResolvingStarts(s: Setup)
    requires FromConstructors(s)
    ensures Resolving(s, 0, Acc(s.base, {}, map[], map[]))
  {
  }

  lemma ResolvingStep(s: Setup, k: nat, acc: Acc)
    requires k < |s.pending| && Resolving(s, k, acc)
    ensures Sane(Process(s, acc, s.pending[k])) && Resolving(s, k + 1, Process(s, acc, s.pending[k]))
  {
    hide Merge, Break, Breakable, Shown, Broken, Process, RefIssue, HasIssue, FirstShown, Parts, Placeholders,
         IssuesResolved, NodesResolved, EdgesResolved, PartsResolved, DrawnEdge, FromConstructors, Sane;
    var e := s.pending[k];
    SaneIsIndexed(acc);
    ProcessCases(s, k, acc);
    IssuesStep(s, k, acc);
    if !Shown(s, k) {
      NotShownStep(s, k, acc);
    } else if !Broken(s, k) {
      MergedStep(s, k, acc, e);
    } else {
      BrokenIsPlaced(s, k);
      BreakKeeps(s, acc, e);
      BreakKeepsSane(s, acc, e);
      EdgesAreTheSame(s, k, acc, Break(s, acc, e));
      MergedStep(s, k, Break(s, acc, e), e.(issue := Some(RefIssue(s, e))));
    }
  }

  lemma SaneIsIndexed(acc: Acc)
    requires Sane(acc)
    ensures Indexed(acc.g)
  {
  }

  lemma EdgesAreTheSame(s: Setup, k: nat, a: Acc, b: Acc)
    requires k <= |s.pending| && a.g.edges == b.g.edges && a.at == b.at && a.parts == b.parts
    requires EdgesResolved(s, k, a) && PartsResolved(s, k, a)
    ensures EdgesResolved(s, k, b) && PartsResolved(s, k, b)
  {
    hide FirstShown, Parts, DrawnEdge;
  }

  lemma NotShownStep(s: Setup, k: nat, acc: Acc)
    requires k < |s.pending| && !Shown(s, k) && EdgesResolved(s, k, acc) && PartsResolved(s, k, acc)
    ensures EdgesResolved(s, k + 1, acc) && PartsResolved(s, k + 1, acc)
  {
    hide Shown, DrawnEdge, FirstShown, Parts;
    NotShown(s, k);
  }

  lemma NotShown(s: Setup, k: nat)
    requires k < |s.pending| && !Shown(s, k)
    ensures FirstShown(s, k + 1) == FirstShown(s, k)
    ensures forall id :: Parts(s, k + 1, id) == Parts(s, k, id)
  {
    hide Shown;
  }

  lemma MergedStep(s: Setup, k: nat, acc: Acc, e: Edge)
    requires FromConstructors(s) && k < |s.pending| && Sane(acc) && Shown(s, k)
    requires EdgesResolved(s, k, acc) && PartsResolved(s, k, acc)
    requires e == s.pending[k].(issue := DrawnEdge(s, s.pending[k]).issue)
    ensures EdgesResolved(s, k + 1, Merge(s, acc, e)) && PartsResolved(s, k + 1, Merge(s, acc, e))
    ensures Sane(Merge(s, acc, e))
  {
    EdgesStep(s, k, acc, e);
    PartsStep(s, k, acc, e);
    MergeIsSane(s, acc, e);
  }

  lemma MergeIsSane(s: Setup, acc: Acc, e: Edge)
    requires Sane(acc)
    ensures Sane(Merge(s, acc, e))
  {
  }

  /** g is what resolveEdges leaves behind. */
  ghost predicate Resolved(s: Setup, g: Graph) {
    var n := |s.pending|;
    && Indexed(s.base) && Indexed(g)
    && g.index.Keys == s.base.index.Keys + Placeholders(s, n)
    && (forall id :: id in s.base.index ==>
          && id in g.index && g.index[id] == s.base.index[id]
          && At(g, id).(issues := []) == At(s.base, id).(issues := [])
          && At(s.base, id).issues <= At(g, id).issues)
    && (forall j :: 0 <= j < n && Broken(s, j) && s.pending[j].source in s.base.index ==>
          Breakable(s, s.pending[j]) && HasIssue(At(g, s.pending[j].source).issues, RefIssue(s, s.pending[j])))
    && (forall t :: t in Placeholders(s, n) ==>
          && t !in s.base.index && t in g.index && ParseResourceId(t).Parsed?
          && At(g, t).(issues := []) == Placeholder(t) && |At(g, t).issues| == 1
          && (!Leaves(s, n, t) ==> At(g, t).issues == [NotFound(FirstLevel(s, n, t))]))
    && |g.edges| == |FirstShown(s, n)|
    && (forall i :: 0 <= i < |g.edges| ==>
          var e := s.pending[FirstShown(s, n)[i]];
          g.edges[i] == DrawnEdge(s, e).(text := CapLabel(Parts(s, n, e.id))))
  }

  lemma {:induction false} TextIsAPart(s: Setup, j: nat, k: nat)
    requires j < k <= |s.pending| && Shown(s, j) && s.pending[j].text != ""
    ensures Parts(s, k, s.pending[j].id) != []
    decreases k
  {
    if j < k - 1 {
      TextIsAPart(s, j, k - 1);
    }
  }

  /** The last two loops: labels onto the edges, and one issue left on each placeholder. */
  ghost predicate Finishes(acc: Acc, g: Graph)
    requires Sane(acc)
  {
    && g.index == acc.g.index && |g.nodes| == |acc.g.nodes| && |g.edges| == |acc.g.edges|
    && (forall i :: 0 <= i < |g.nodes| ==>
          g.nodes[i] == if acc.g.nodes[i].id in acc.missing
                        then acc.g.nodes[i].(issues := [WorstOf(acc.g.nodes[i].issues)]) else acc.g.nodes[i])
    && (forall i :: 0 <= i < |g.edges| ==>
          g.edges[i] == if acc.g.edges[i].id in acc.parts
                        then acc.g.edges[i].(text := CapLabel(acc.parts[acc.g.edges[i].id])) else acc.g.edges[i])
  }

  lemma FinishedNode(acc: Acc, g: Graph, id: string)
    requires Sane(acc) && Finishes(acc, g) && id in acc.g.index
    ensures Indexed(g)
    ensures At(g, id) == if id in acc.missing then At(acc.g, id).(issues := [WorstOf(At(acc.g, id).issues)])
                         else At(acc.g, id)
  {
    assert forall i :: 0 <= i < |g.nodes| ==> g.nodes[i].id == acc.g.nodes[i].id;
  }

  lemma FinishedIsResolved(s: Setup, acc: Acc, g: Graph)
    requires Resolving(s, |s.pending|, acc) && Finishes(acc, g)
    ensures Resolved(s, g)
  {
    hide Breakable, Shown, Broken, RefIssue, HasIssue, FirstShown, Parts, Placeholders, DrawnEdge, FirstLevel,
         ParseResourceId, CapLabel, WorstOf, Placeholder, Leaves, At, Finishes, FromConstructors, Indexed,
         EdgesResolved, PartsResolved;
    var n := |s.pending|;
    SetupIsIndexed(s);
    FinishedIndex(acc, g);
    forall id | id in acc.g.index
      ensures Indexed(g)
      ensures At(g, id) == if id in acc.missing then At(acc.g, id).(issues := [WorstOf(At(acc.g, id).issues)])
                           else At(acc.g, id)
    {
      FinishedNode(acc, g, id);
    }
    forall t | t in acc.missing
      ensures At(acc.g, t).issues != []
      ensures |At(acc.g, t).issues| == 1 ==> [WorstOf(At(acc.g, t).issues)] == At(acc.g, t).issues
    {
      var issues := At(acc.g, t).issues;
      if |issues| == 1 {
        FirstLevelIsRanked(s, n, t);
        WorstOfOne(issues[0]);
        assert issues == [issues[0]];
      }
    }
    FinishedEdges(s, acc, g);
  }

  lemma SetupIsIndexed(s: Setup)
    requires FromConstructors(s)
    ensures Indexed(s.base)
  {
  }

  lemma FinishedIndex(acc: Acc, g: Graph)
    requires Sane(acc) && Finishes(acc, g)
    ensures Indexed(g) && g.index == acc.g.index
  {
    assert forall i :: 0 <= i < |g.nodes| ==> g.nodes[i].id == acc.g.nodes[i].id;
  }

  lemma WorstOfOne(it: Issue)
    requires !it.level.NoLevel?
    ensures WorstOf([it]) == it
  {
  }

  lemma FirstLevelIsRanked(s: Setup, k: nat, t: string)
    requires k <= |s.pending| && t in Placeholders(s, k)
    ensures !FirstLevel(s, k, t).NoLevel?
  {
  }

  lemma FinishedEdges(s: Setup, acc: Acc, g: Graph)
    requires Resolving(s, |s.pending|, acc) && Finishes(acc, g)
    ensures var n := |s.pending|;
            && |g.edges| == |FirstShown(s, n)|
            && (forall i :: 0 <= i < |g.edges| ==>
                  var e := s.pending[FirstShown(s, n)[i]];
                  g.edges[i] == DrawnEdge(s, e).(text := CapLabel(Parts(s, n, e.id))))
  {
    hide Breakable, RefIssue, HasIssue, NodesResolved, IssuesResolved, Placeholders, WorstOf, Indexed, Shown,
         FromConstructors, Parts;
    var n := |s.pending|;
    forall i | 0 <= i < |g.edges|
      ensures var e := s.pending[FirstShown(s, n)[i]];
              g.edges[i] == DrawnEdge(s, e).(text := CapLabel(Parts(s, n, e.id)))
    {
      var f := FirstShown(s, n)[i];
      if s.pending[f].text != "" {
        TextIsAPart(s, f, n);
      }
    }
  }

  // ---------------------------------------------------------------- what a reader of the graph may rely on

  /** Edge ids are unique and no edge hangs in the air. */
  lemma EdgesAreSound(s: Setup, g: Graph)
    requires Resolved(s, g)
    ensures forall i, j :: 0 <= i < j < |g.edges| ==> g.edges[i].id != g.edges[j].id
    ensures forall i :: 0 <= i < |g.edges| ==> g.edges[i].source in g.index && g.edges[i].target in g.index
  {
    hide Resolved, FirstShown, Shown, Placeholders;
    var n := |s.pending|;
    ResolvedEdges(s, g);
    forall i | 0 <= i < |g.edges|
      ensures g.edges[i].source in g.index && g.edges[i].target in g.index
    {
      ShownIsDrawn(s, FirstShown(s, n)[i], n);
    }
  }

  predicate SameEnds(a: Edge, b: Edge) { a.id == b.id && a.source == b.source && a.target == b.target }

  /** The resolved graph, edge by edge. */
  lemma ResolvedEdges(s: Setup, g: Graph)
    requires Resolved(s, g)
    ensures var n := |s.pending|; var first := FirstShown(s, n);
      && |g.edges| == |first| && g.index.Keys == s.base.index.Keys + Placeholders(s, n)
      && (forall i :: 0 <= i < |first| ==> first[i] < n && Shown(s, first[i]) && SameEnds(g.edges[i], s.pending[first[i]]))
  {
    hide FirstShown, Shown, Placeholders, Broken, Leaves, FirstLevel, HasIssue, RefIssue, Placeholder, At, Indexed, Breakable,
         ParseResourceId, CapLabel, Parts;
  }

  lemma ShownIsDrawn(s: Setup, j: nat, k: nat)
    requires j < k <= |s.pending| && Shown(s, j)
    ensures Drawn(s, Placeholders(s, k), s.pending[j].source) && Drawn(s, Placeholders(s, k), s.pending[j].target)
  {
    hide Placeholders, Breakable;
    PlaceholdersGrow(s, j, k);
    PlaceholdersGrow(s, j + 1, k);
    if Broken(s, j) {
      BrokenIsPlaced(s, j);
    }
  }

  lemma PlacedStep(s: Setup, k: nat, t: string)
    requires k < |s.pending|
    ensures t in Placeholders(s, k + 1) <==> t in Placeholders(s, k) || (Broken(s, k) && s.pending[k].target == t)
  {
  }

  /** t became a placeholder exactly if some edge of a checked kind, whose source was
      drawn by then, names it, and it is absent, checkable and not excluded. */
  lemma {:induction false} PlaceholderIff(s: Setup, k: nat, t: string)
    requires k <= |s.pending|
    ensures t in Placeholders(s, k) <==> exists j :: 0 <= j < k && Broken(s, j) && s.pending[j].target == t
    decreases k, 0
  {
    hide Broken;
    if k > 0 {
      PlacedPrefix(s, k - 1, t);
    } else {
      assert t !in Placeholders(s, 0);
    }
  }

  lemma {:induction false} PlacedPrefix(s: Setup, k: nat, t: string)
    requires k < |s.pending|
    ensures t in Placeholders(s, k + 1) <==> exists j :: 0 <= j < k + 1 && Broken(s, j) && s.pending[j].target == t
    decreases k, 1
  {
    hide Placeholders, Broken;
    PlaceholderIff(s, k, t);
    PlacedStep(s, k, t);
    if j :| 0 <= j < k && Broken(s, j) && s.pending[j].target == t {
      assert 0 <= j < k + 1;
    }
  }

  /** A node is missing, and an edge is drawn broken, exactly for such targets. */
  lemma MissingIff(s: Setup, g: Graph)
    requires Resolved(s, g)
    requires forall i :: 0 <= i < |s.base.nodes| ==> !s.base.nodes[i].missing
    requires forall k :: 0 <= k < |s.pending| ==> s.pending[k].issue.None?
    ensures forall t :: t in g.index ==>
      (At(g, t).missing <==> exists j :: 0 <= j < |s.pending| && Broken(s, j) && s.pending[j].target == t)
    ensures forall t :: t in g.index && At(g, t).missing ==> |At(g, t).issues| == 1
    ensures forall i :: 0 <= i < |g.edges| ==>
      g.edges[i].target in g.index && (g.edges[i].issue.Some? <==> At(g, g.edges[i].target).missing)
  {
    var n := |s.pending|;
    EdgesAreSound(s, g);
    forall t | t in g.index
      ensures At(g, t).missing <==> t in Placeholders(s, n)
      ensures At(g, t).missing <==> exists j :: 0 <= j < n && Broken(s, j) && s.pending[j].target == t
    {
      PlaceholderIff(s, n, t);
      MissingIsPlaceholder(s, g, t);
    }
    forall i | 0 <= i < |g.edges|
      ensures g.edges[i].issue.Some? <==> g.edges[i].target in Placeholders(s, n)
    {
      EdgeBroken(s, g, i);
    }
  }

  /** A reference that counts: of one of three kinds, to an object of a kind that was listed in full, which every namespace's root certificate is not held to. */
  predicate Demands(s: Setup, e: Edge) {
    var p := ParseResourceId(e.target);
    && e.kind in {"config", "storage", "ingress"}
    && p.Parsed? && p.kind in s.checkable && (p.kind, p.name) != ("ConfigMap", "kube-root-ca.crt")
  }

  /** So an absent object is drawn as missing exactly when something drawn by then demands it. */
  lemma MissingMeansDemanded(s: Setup, g: Graph, t: string)
    requires Resolved(s, g) && t in g.index
    requires forall i :: 0 <= i < |s.base.nodes| ==> !s.base.nodes[i].missing
    requires forall k :: 0 <= k < |s.pending| ==> s.pending[k].issue.None?
    ensures At(g, t).missing <==>
      t !in s.base.index &&
      exists j :: 0 <= j < |s.pending| && s.pending[j].target == t && Demands(s, s.pending[j])
                  && Drawn(s, Placeholders(s, j), s.pending[j].source)
  {
    hide Resolved, Indexed, Drawn, ParseResourceId, Placeholders;
    MissingIff(s, g);
    forall j | 0 <= j < |s.pending|
      ensures Broken(s, j) <==> s.pending[j].target !in s.base.index && Demands(s, s.pending[j])
                                && Drawn(s, Placeholders(s, j), s.pending[j].source)
    {
    }
  }

  lemma MissingIsPlaceholder(s: Setup, g: Graph, t: string)
    requires Resolved(s, g) && t in g.index
    requires forall i :: 0 <= i < |s.base.nodes| ==> !s.base.nodes[i].missing
    ensures At(g, t).missing <==> t in Placeholders(s, |s.pending|)
  {
    if t in s.base.index {
      assert !At(s.base, t).missing;
      assert At(g, t).(issues := []).missing == At(s.base, t).(issues := []).missing;
    } else {
      assert At(g, t).(issues := []).missing == Placeholder(t).missing;
    }
  }

  lemma EdgeBroken(s: Setup, g: Graph, i: nat)
    requires Resolved(s, g) && i < |g.edges|
    requires forall k :: 0 <= k < |s.pending| ==> s.pending[k].issue.None?
    ensures g.edges[i].issue.Some? <==> g.edges[i].target in Placeholders(s, |s.pending|)
  {
    hide Breakable, FirstLevel, Leaves, HasIssue, Placeholder, ParseResourceId, Parts, CapLabel, Indexed, At;
    var n, f := |s.pending|, FirstShown(s, |s.pending|)[i];
    ShownIsDrawn(s, f, n);
    EdgeIsBroken(s, s.pending[f]);
  }

  lemma EdgeIsBroken(s: Setup, e: Edge)
    requires e.issue.None?
    ensures DrawnEdge(s, e).issue.Some? <==> e.target !in s.base.index && Breakable(s, e)
  {
  }

  // ---------------------------------------------------------------- the level of a placeholder

  /** Some shown reference requires t. */
  ghost predicate Required(s: Setup, k: nat, t: string)
    requires k <= |s.pending|
  {
    exists j :: 0 <= j < k && Broken(s, j) && s.pending[j].target == t && s.pending[j].id !in s.optional
  }

  /** j is the first broken reference to t. */
  ghost predicate FirstReference(s: Setup, j: int, t: string) {
    && 0 <= j < |s.pending| && Broken(s, j) && s.pending[j].target == t
    && forall i :: 0 <= i < j && Broken(s, i) ==> s.pending[i].target != t
  }

  lemma {:induction false} FirstReferenceLevel(s: Setup, k: nat, t: string, j: int)
    requires 0 < k <= |s.pending| && t in Placeholders(s, k) && FirstReference(s, j, t)
    ensures FirstLevel(s, k, t) == LevelOf(s, s.pending[j])
  {
    hide Broken, Placeholders;
    PlacedStep(s, k - 1, t);
    PlaceholderIff(s, k - 1, t);
    if t in Placeholders(s, k - 1) {
      FirstReferenceLevel(s, k - 1, t, j);
    } else {
      assert forall i :: 0 <= i < k - 1 && Broken(s, i) ==> s.pending[i].target != t;
    }
  }

  /** A placeholder that names nothing absent itself should be an error as soon as any
      reference requires it. It is so exactly when the first reference requires it or
      none does: later references never change the level. */
  lemma PlaceholderLevelIff(s: Setup, g: Graph, t: string, j: int)
    requires Resolved(s, g) && FirstReference(s, j, t) && !Leaves(s, |s.pending|, t)
    requires t in g.index && t in Placeholders(s, |s.pending|)
    ensures |At(g, t).issues| == 1 && At(g, t).issues[0].code == "notFound"
    ensures (At(g, t).issues[0].level == if Required(s, |s.pending|, t) then Err else Warn)
            <==> (s.pending[j].id !in s.optional || !Required(s, |s.pending|, t))
  {
    assert |s.pending| > 0;
    FirstReferenceLevel(s, |s.pending|, t, j);
  }

  /** Two drawn pods and one absent Secret, which the first pod may do without. */
  function OptionalThenRequired(a: string, b: string, t: string): Setup {
    Setup(Graph([Node(a, "Pod", "a", "ns", false, []), Node(b, "Pod", "b", "ns", false, [])], map[a := 0, b := 1], []),
          [Edge(EdgeId(a, t), a, t, "config", "", false, None), Edge(EdgeId(b, t), b, t, "config", "", false, None)],
          {EdgeId(a, t)}, {"Secret"})
  }

  /** The other way round it fails: an optional reference first, a required one second,
      and the placeholder stays a warning. */
  lemma OptionalFirstStaysWarning()
    ensures var t := ResourceId("Secret", "ns", "x");
            var s := OptionalThenRequired(ResourceId("Pod", "ns", "a"), ResourceId("Pod", "ns", "b"), t);
            && FromConstructors(s) && t in Placeholders(s, 2) && !Leaves(s, 2, t)
            && Required(s, 2, t) && FirstLevel(s, 2, t) == Warn
  {
    hide FromConstructors, Placeholders, Leaves, Required, FirstLevel, ResourceId, OptionalThenRequired, Breakable;
    var a, b, t := ResourceId("Pod", "ns", "a"), ResourceId("Pod", "ns", "b"), ResourceId("Secret", "ns", "x");
    IdsDiffer(a, b, t);
    SetupIsPlain(a, b, t);
    var s := OptionalThenRequired(a, b, t);
    OptionalFirst(s, s.pending[0], s.pending[1], t);
  }

  lemma SetupIsPlain(a: string, b: string, t: string)
    requires a != b && a != t && b != t && EdgeId(a, t) != EdgeId(b, t)
    requires ParseResourceId(t) == Parsed("Secret", "ns", "x")
    ensures var s := OptionalThenRequired(a, b, t);
            && FromConstructors(s) && |s.pending| == 2 && s.optional == {s.pending[0].id}
            && s.pending == [s.pending[0], s.pending[1]] && s.pending[0].id != s.pending[1].id
            && s.pending[0].target == t && s.pending[1].target == t && t !in s.base.index
            && s.pending[0].source in s.base.index && s.pending[1].source in s.base.index
            && Breakable(s, s.pending[0]) && Breakable(s, s.pending[1])
  {
    hide ParseResourceId, EdgeId;
    var s := OptionalThenRequired(a, b, t);
    assert s.pending == [s.pending[0], s.pending[1]];
  }

  lemma IdsDiffer(a: string, b: string, t: string)
    requires a == ResourceId("Pod", "ns", "a") && b == ResourceId("Pod", "ns", "b") && t == ResourceId("Secret", "ns", "x")
    ensures a != b && a != t && b != t && EdgeId(a, t) != EdgeId(b, t)
    ensures ParseResourceId(t) == Parsed("Secret", "ns", "x")
  {
    hide ParseResourceId;
    assert a[|a| - 1] == 'a' && b[|b| - 1] == 'b' && t[|t| - 1] == 'x' && |a| == |b|;
    assert EdgeId(a, t)[|a| - 1] == 'a' && EdgeId(b, t)[|b| - 1] == 'b';
    ParsePrinted("Secret", "ns", "x");
  }

  lemma OptionalFirst(s: Setup, e1: Edge, e2: Edge, t: string)
    requires FromConstructors(s) && s.pending == [e1, e2] && s.optional == {e1.id} && e1.id != e2.id
    requires e1.target == t == e2.target && e1.source in s.base.index && e2.source in s.base.index
    requires t !in s.base.index && Breakable(s, e1) && Breakable(s, e2)
    ensures t in Placeholders(s, 2) && !Leaves(s, 2, t) && Required(s, 2, t) && FirstLevel(s, 2, t) == Warn
  {
    hide Breakable, FromConstructors;
    assert Placeholders(s, 0) == {};
    assert Placeholders(s, 1) == {t} && Placeholders(s, 2) == {t};
    assert Broken(s, 0) && Broken(s, 1);
    assert FirstLevel(s, 1, t) == LevelOf(s, s.pending[0]);
    assert s.pending[1].id !in s.optional;
  }
}
