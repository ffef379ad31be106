/**
 The graph builder of internal/services/clusterResourceServices.go: one object whose
 methods fill the node list, its index and the pending edges, and then resolve them.
 */
module GraphBuilder {
  import opened Options
  import opened Ids
  import opened ResourceGraph

  class Builder {
    var nodes: seq<Node>
    var edges: seq<Edge>
    var index: map<string, nat>
    var pending: seq<Edge>
    var optional: set<string>

    ghost function Value(): Graph
      reads this
    {
      Graph(nodes, index, edges)
    }

    constructor ()
      ensures Indexed(Value()) && Value() == Graph([], map[], [])
      ensures pending == [] && optional == {}
    {
      nodes, edges, index, pending, optional := [], [], map[], [], {};
    }

    /** The first object under an id is kept; a second one is dropped. */
    method InsertNode(n: Node)
      requires Indexed(Value())
      modifies this`nodes, this`index
      ensures Value() == AddNode(old(Value()), n) && Indexed(Value())
    {
      AddNodeKeeps(Value(), n);
      if n.id in index {
        return;
      }
      index := index[n.id := |nodes|];
      nodes := nodes + [n];
    }

    /** What the assembly keeps: nothing is resolved yet, and every pending edge was built from its ends. */
    ghost predicate Assembling()
      reads this
    {
      Indexed(Value()) && edges == [] && forall k :: 0 <= k < |pending| ==> Built(pending[k])
    }

    method Pend(more: seq<Edge>)
      requires Assembling() && forall k :: 0 <= k < |more| ==> Built(more[k])
      modifies this`pending
      ensures pending == old(pending) + more && Assembling()
    {
      pending := pending + more;
    }

    method PendOptional(e: Edge)
      requires Assembling() && Built(e)
      modifies this`pending, this`optional
      ensures pending == old(pending) + [e] && optional == old(optional) + {e.id} && Assembling()
    {
      optional := optional + {e.id};
      pending := pending + [e];
    }

    /** AddIssue on the node under `id`, if there is one; the loop looks for an issue that
        differs in its level at most. */
    method NoteIssue(id: string, it: Issue)
      requires Indexed(Value())
      modifies this`nodes
      ensures Value() == AddIssue(old(Value()), id, it) && Indexed(Value())
    {
      AddIssueKeeps(Value(), id, it);
      if id !in index {
        return;
      }
      var i := index[id];
      var n := nodes[i];
      for k := 0 to |n.issues|
        invariant forall j :: 0 <= j < k ==> !(n.issues[j].code == it.code && n.issues[j].params == it.params)
      {
        if n.issues[k].code == it.code && n.issues[k].params == it.params {
          assert HasIssue(n.issues, it);
          assert nodes[i := n] == nodes;
          return;
        }
      }
      nodes := nodes[i := n.(issues := n.issues + [it])];
    }

    /** A broken reference: the placeholder, the issue on it and the one on its source. */
    method BreakEdge(e: Edge, checkable: set<string>, missing: set<string>, ghost s: Setup, ghost acc: Acc)
      returns (missing': set<string>)
      requires Indexed(Value()) && s.optional == optional && s.checkable == checkable
      requires Breakable(s, e) && acc.g == Value() && acc.missing == missing
      modifies this`nodes, this`index
      ensures acc.(g := Value(), missing := missing') == Break(s, acc, e)
      ensures Indexed(Value()) && edges == old(edges)
    {
      hide AddNode, AddIssue, Indexed, ParseResourceId;
      missing' := missing;
      var p := ParseResourceId(e.target);
      var level, code := Err, "missingRef";
      if e.id in optional {
        level, code := Warn, "optionalRefMissing";
      }
      if e.target !in index {
        missing' := missing' + {e.target};
        InsertNode(Node(e.target, p.kind, p.name, p.namespace, true, []));
      }
      NoteIssue(e.target, Issue(level, "notFound", NoParams));
      NoteIssue(e.source, Issue(level, code, RefParams(p.kind, p.name)));
    }
  
    /** One pending edge: dropped, drawn, or merged into the edge under the same id. */
    method ProcessEdge(pe: Edge, checkable: set<string>, missing: set<string>, at: map<string, nat>,
                       parts: map<string, seq<string>>, ghost s: Setup)
      returns (missing': set<string>, at': map<string, nat>, parts': map<string, seq<string>>)
      requires Sane(Acc(Value(), missing, at, parts))
      requires s.optional == optional && s.checkable == checkable
      modifies this`nodes, this`index, this`edges
      ensures Acc(Value(), missing', at', parts') == Process(s, Acc(old(Value()), missing, at, parts), pe)
    {
      hide Indexed, ParseResourceId, Break;
      missing', at', parts' := missing, at, parts;
      var e := pe;
      if e.source !in index {
        return;
      }
      if e.target !in index || e.target in missing {
        var p := ParseResourceId(e.target);
        if !p.Parsed? || !CheckedKind(e.kind) || p.kind !in checkable || (p.kind == "ConfigMap" && p.name == KUBE_ROOT_CA) {
          return;
        }
        ghost var acc := Acc(Value(), missing, at, parts);
        BreakKeeps(s, acc, e);
        missing' := BreakEdge(e, checkable, missing, s, acc);
        e := e.(issue := Some(Issue(if e.id in optional then Warn else Err,
                                    if e.id in optional then "optionalRefMissing" else "missingRef",
                                    RefParams(p.kind, p.name))));
      }
      at', parts' := MergeEdge(e, missing', at, parts, s);
    }

    /** An edge is drawn once under its id; a second one adds its label, and its issue if it is worse. */
    method MergeEdge(e: Edge, ghost missing: set<string>, at: map<string, nat>, parts: map<string, seq<string>>, ghost s: Setup)
      returns (at': map<string, nat>, parts': map<string, seq<string>>)
      requires Sane(Acc(Value(), missing, at, parts)) && s.optional == optional
      modifies this`edges
      ensures Acc(Value(), missing, at', parts') == Merge(s, Acc(old(Value()), missing, at, parts), e)
    {
      at', parts' := at, parts;
      if e.id in at {
        var i := at[e.id];
        if e.text != "" {
          parts' := parts[e.id := AppendUnique(if e.id in parts then parts[e.id] else [], e.text)];
        }
        if Worse(e.issue, edges[i].issue) {
          edges := edges[i := edges[i].(issue := e.issue)];
        }
        return;
      }
      at' := at[e.id := |edges|];
      if e.text != "" {
        parts' := parts[e.id := [e.text]];
      }
      edges := edges + [e.(optional := e.id in optional)];
    }

    /** The pending edges become the graph's: whatever was pending, in whatever order. */
    method ResolveEdges(checkable: set<string>)
      requires FromConstructors(Setup(Value(), pending, optional, checkable))
      modifies this`nodes, this`index, this`edges
      ensures Resolved(Setup(old(Value()), pending, optional, checkable), Value())
    {
      hide Resolving, Resolved, Process, Indexed, FromConstructors, Finishes, CapLabel, WorstOf;
      ghost var s := Setup(Value(), pending, optional, checkable);
      var missing: set<string>, at: map<string, nat>, parts: map<string, seq<string>> := {}, map[], map[];
      ResolvingStarts(s);
      ResolvingIsSane(s, 0, Acc(Value(), missing, at, parts));
      for k := 0 to |pending|
        invariant pending == s.pending && optional == s.optional
        invariant Resolving(s, k, Acc(Value(), missing, at, parts))
      {
        ghost var acc := Acc(Value(), missing, at, parts);
        ResolvingIsSane(s, k, acc);
        ResolvingStep(s, k, acc);
        missing, at, parts := ProcessEdge(pending[k], checkable, missing, at, parts, s);
      }
      ghost var acc := Acc(Value(), missing, at, parts);
      ResolvingIsSane(s, |pending|, acc);
      LabelEdges(parts, at, acc, s);
      SettlePlaceholders(missing, acc);
      FinishedIsResolved(s, acc, Value());
    }

    /** The merged labels, in any order of the ids. */
    method LabelEdges(parts: map<string, seq<string>>, at: map<string, nat>, ghost acc: Acc, ghost s: Setup)
      requires Resolving(s, |s.pending|, acc) && acc.g == Value() && acc.parts == parts && acc.at == at
      modifies this`edges
      ensures |edges| == |acc.g.edges|
      ensures forall i :: 0 <= i < |edges| ==>
        edges[i] == if acc.g.edges[i].id in parts
                    then acc.g.edges[i].(text := CapLabel(parts[acc.g.edges[i].id])) else acc.g.edges[i]
    {
      hide CapLabel, Resolving;
      EveryLabelHasItsEdge(s, acc);
      var todo := parts.Keys;
      while todo != {}
        invariant todo <= parts.Keys && |edges| == |acc.g.edges|
        invariant forall i :: 0 <= i < |edges| ==>
          edges[i] == if acc.g.edges[i].id in parts && acc.g.edges[i].id !in todo
                      then acc.g.edges[i].(text := CapLabel(parts[acc.g.edges[i].id])) else acc.g.edges[i]
        decreases todo
      {
        var id :| id in todo;
        todo := todo - {id};
        var i := at[id];
        edges := edges[i := edges[i].(text := CapLabel(parts[id]))];
      }
    }

    /** Each placeholder keeps one issue, the most severe. */
    method SettlePlaceholders(missing: set<string>, ghost acc: Acc)
      requires Sane(acc) && acc.missing == missing && missing <= acc.g.index.Keys
      requires nodes == acc.g.nodes && index == acc.g.index && |edges| == |acc.g.edges|
      requires forall i :: 0 <= i < |edges| ==>
        edges[i] == if acc.g.edges[i].id in acc.parts
                    then acc.g.edges[i].(text := CapLabel(acc.parts[acc.g.edges[i].id])) else acc.g.edges[i]
      modifies this`nodes
      ensures Finishes(acc, Value())
    {
      hide CapLabel, WorstOf;
      var todo := missing;
      while todo != {}
        invariant todo <= missing && |nodes| == |acc.g.nodes|
        invariant forall i :: 0 <= i < |nodes| ==>
          nodes[i] == if acc.g.nodes[i].id in missing && acc.g.nodes[i].id !in todo
                      then acc.g.nodes[i].(issues := [WorstOf(acc.g.nodes[i].issues)]) else acc.g.nodes[i]
        decreases todo
      {
        var id :| id in todo;
        todo := todo - {id};
        var i := index[id];
        var w := WorstIssue(nodes[i].issues);
        nodes := nodes[i := nodes[i].(issues := [w])];
      }
    }
  }

  // ---- From the parts to the graph ----

  /** What an assembly adds, one part at a time: a node, an edge, or an edge whose target may be absent. */
  datatype Part = NodePart(n: Node) | EdgePart(e: Edge) | OptionalPart(e: Edge)

  function NodesOf(parts: seq<Part>): Graph {
    if parts == [] then Graph([], map[], [])
    else
      var p, before := parts[|parts| - 1], NodesOf(parts[..|parts| - 1]);
      if p.NodePart? then AddNode(before, p.n) else before
  }

  function PendingOf(parts: seq<Part>): seq<Edge> {
    if parts == [] then []
    else
      var p := parts[|parts| - 1];
      PendingOf(parts[..|parts| - 1]) + if p.NodePart? then [] else [p.e]
  }

  function OptionalOf(parts: seq<Part>): set<string> {
    set p | p in parts && p.OptionalPart? :: p.e.id
  }

  /** Any parts, in any order, and then the resolution. */
  method AssembleGraph(parts: seq<Part>, checkable: set<string>) returns (b: Builder)
    requires forall k :: 0 <= k < |parts| && !parts[k].NodePart? ==> Built(parts[k].e)
    ensures fresh(b)
    ensures Resolved(Setup(NodesOf(parts), PendingOf(parts), OptionalOf(parts), checkable), b.Value())
  {
    hide Resolved, FromConstructors, Indexed, AddNode, Built;
    b := new Builder();
    for k := 0 to |parts|
      invariant fresh(b) && b.Assembling() && b.Value() == NodesOf(parts[..k])
      invariant b.pending == PendingOf(parts[..k]) && b.optional == OptionalOf(parts[..k])
    {
      assert parts[..k + 1][..k] == parts[..k];
      OptionalSnoc(parts, k);
      match parts[k] {
        case NodePart(n) =>
          AddNodeKeeps(b.Value(), n);
          b.InsertNode(n);
        case EdgePart(e) => b.Pend([e]);
        case OptionalPart(e) => b.PendOptional(e);
      }
    }
    assert parts[..|parts|] == parts;
    BuiltEdgesQualify(Setup(b.Value(), b.pending, b.optional, checkable));
    b.ResolveEdges(checkable);
  }

  lemma OptionalSnoc(parts: seq<Part>, k: nat)
    requires k < |parts|
    ensures OptionalOf(parts[..k + 1]) == OptionalOf(parts[..k]) + if parts[k].OptionalPart? then {parts[k].e.id} else {}
  {
    assert parts[..k + 1] == parts[..k] + [parts[k]];
  }

  lemma ResolvingIsSane(s: Setup, k: nat, acc: Acc)
    requires k <= |s.pending| && Resolving(s, k, acc)
    ensures Sane(acc) && acc.missing <= acc.g.index.Keys
  {
  }

  lemma EveryLabelHasItsEdge(s: Setup, acc: Acc)
    requires Resolving(s, |s.pending|, acc)
    ensures forall id :: id in acc.parts ==>
      id in acc.at && acc.at[id] < |acc.g.edges| && acc.g.edges[acc.at[id]].id == id
    ensures forall i, j :: 0 <= i < j < |acc.g.edges| ==> acc.g.edges[i].id != acc.g.edges[j].id
  {
  }
}
