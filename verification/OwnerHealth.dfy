// internal/services/clusterGraphHealth.go:41-52,87-105,162-195: how a failing
// pod shows on everything that owns it, and a Service on its Ingress.

module OwnerHealth {
  import opened Options
  import opened ResourceGraph

  // ---- Owner chains ----

  predicate Owns(edges: seq<Edge>, owner: string, child: string) {
    exists i :: 0 <= i < |edges| && edges[i].kind == "owner" && edges[i].source == owner && edges[i].target == child
  }

  /** A chain of owner edges, child first. */
  predicate Chain(edges: seq<Edge>, path: seq<string>) {
    forall i :: 0 <= i < |path| - 1 ==> Owns(edges, path[i + 1], path[i])
  }

  /** `owner` is reached from `child` by one or more owner edges. */
  ghost predicate Above(edges: seq<Edge>, child: string, owner: string) {
    exists path :: |path| >= 2 && path[0] == child && path[|path| - 1] == owner && Chain(edges, path)
  }

  lemma OwnerIsAbove(edges: seq<Edge>, child: string, owner: string)
    requires Owns(edges, owner, child)
    ensures Above(edges, child, owner)
  {
    var path := [child, owner];
    assert Chain(edges, path);
  }

  lemma AboveStep(edges: seq<Edge>, child: string, mid: string, owner: string)
    requires Above(edges, child, mid) && Owns(edges, owner, mid)
    ensures Above(edges, child, owner)
  {
    var path :| |path| >= 2 && path[0] == child && path[|path| - 1] == mid && Chain(edges, path);
    var longer := path + [owner];
    assert Chain(edges, longer);
    assert longer[|longer| - 1] == owner && longer[0] == child;
  }

  /** Whatever holds of the direct owners and passes from child to owner holds of everything above. */
  lemma {:induction false} ClosedHoldsAbove(edges: seq<Edge>, child: string, closed: set<string>, path: seq<string>)
    requires |path| >= 2 && path[0] == child && Chain(edges, path)
    requires forall a, b :: (a == child || a in closed) && Owns(edges, b, a) ==> b in closed
    ensures path[|path| - 1] in closed
  {
    var n := |path| - 1;
    assert Owns(edges, path[n], path[n - 1]);
    if n > 1 {
      ClosedHoldsAbove(edges, child, closed, path[..n]);
    }
  }

  type Owners = map<string, seq<string>>

  function Of(owners: Owners, child: string): seq<string> {
    if child in owners then owners[child] else []
  }

  /** The lists of direct owners are those of the edges. */
  ghost predicate Lists(owners: Owners, edges: seq<Edge>) {
    forall child, owner :: owner in Of(owners, child) <==> Owns(edges, owner, child)
  }

  method CollectOwners(edges: seq<Edge>) returns (owners: Owners)
    ensures Lists(owners, edges)
  {
    owners := map[];
    for n := 0 to |edges|
      invariant Lists(owners, edges[..n])
    {
      var e := edges[n];
      ghost var before := owners;
      if e.kind == "owner" {
        owners := owners[e.target := Of(owners, e.target) + [e.source]];
      }
      forall child, owner
        ensures owner in Of(owners, child) <==> Owns(edges[..n + 1], owner, child)
      {
        OwnsMore(edges, n, owner, child);
        assert owner in Of(before, child) <==> Owns(edges[..n], owner, child);
      }
    }
    assert edges[..|edges|] == edges;
  }

  lemma OwnsMore(edges: seq<Edge>, n: nat, owner: string, child: string)
    requires n < |edges|
    ensures Owns(edges[..n + 1], owner, child) <==>
            (Owns(edges[..n], owner, child)
             || (edges[n].kind == "owner" && edges[n].source == owner && edges[n].target == child))
  {
    var more, less := edges[..n + 1], edges[..n];
    assert more == less + [edges[n]];
    if Owns(less, owner, child) {
      var i :| 0 <= i < |less| && less[i].kind == "owner" && less[i].source == owner && less[i].target == child;
      assert more[i] == less[i];
    }
    assert more[n] == edges[n];
  }

  function Count(counts: map<string, nat>, o: string): nat { if o in counts then counts[o] else 0 }
  function One(b: bool): nat { if b then 1 else 0 }

  function AllOwners(owners: Owners): set<string> {
    set child, i | child in owners && 0 <= i < |owners[child]| :: owners[child][i]
  }

  /**
   * What the breadth-first search keeps: everything met is above the pod, and
   * whatever owns the pod or a seen node is seen or waiting.
   */
  ghost predicate Frontier(edges: seq<Edge>, owners: Owners, pod: string, seen: set<string>, queue: seq<string>) {
    && (forall o :: o in seen || o in queue ==> Above(edges, pod, o) && o in AllOwners(owners))
    && (forall a, b :: (a == pod || a in seen) && b in Of(owners, a) ==> b in seen || b in queue)
  }

  lemma FrontierStarts(edges: seq<Edge>, owners: Owners, pod: string)
    requires Lists(owners, edges)
    ensures Frontier(edges, owners, pod, {}, Of(owners, pod))
  {
    forall o | o in Of(owners, pod) ensures Above(edges, pod, o) {
      OwnerIsAbove(edges, pod, o);
    }
  }

  lemma FrontierMoves(edges: seq<Edge>, owners: Owners, pod: string, seen: set<string>, queue: seq<string>)
    requires Lists(owners, edges) && Frontier(edges, owners, pod, seen, queue) && queue != []
    ensures queue[0] in seen ==> Frontier(edges, owners, pod, seen, queue[1..])
    ensures Frontier(edges, owners, pod, seen + {queue[0]}, queue[1..] + Of(owners, queue[0]))
  {
    hide Above, Owns;
    var o := queue[0];
    assert queue == [o] + queue[1..];
    forall b | b in Of(owners, o) ensures Above(edges, pod, b) {
      AboveStep(edges, pod, o, b);
    }
  }

  lemma FrontierEnds(edges: seq<Edge>, owners: Owners, pod: string, seen: set<string>)
    requires Lists(owners, edges) && Frontier(edges, owners, pod, seen, [])
    ensures forall o :: o in seen <==> Above(edges, pod, o)
  {
    hide Owns;
    forall o | Above(edges, pod, o) ensures o in seen {
      var path :| |path| >= 2 && path[0] == pod && path[|path| - 1] == o && Chain(edges, path);
      ClosedHoldsAbove(edges, pod, seen, path);
    }
  }

  lemma SeenGrows(owners: Owners, seen: set<string>, o: string)
    requires o in AllOwners(owners) && o !in seen
    ensures |AllOwners(owners) - (seen + {o})| < |AllOwners(owners) - seen|
  {
    var left := AllOwners(owners) - seen;
    assert AllOwners(owners) - (seen + {o}) == left - {o};
  }

  /** `out` counts one more than `counts` for each of `seen`. */
  predicate Tallied(counts: map<string, nat>, seen: set<string>, out: map<string, nat>) {
    && out.Keys == counts.Keys + seen
    && (forall o :: o in out.Keys ==> out[o] == Count(counts, o) + One(o in seen))
  }

  lemma TallyOne(counts: map<string, nat>, seen: set<string>, out: map<string, nat>, o: string)
    requires Tallied(counts, seen, out) && o !in seen
    ensures Tallied(counts, seen + {o}, out[o := Count(out, o) + 1])
  {
  }

  lemma TallyNone(counts: map<string, nat>)
    ensures Tallied(counts, {}, counts)
  {
  }

  lemma TallyAll(counts: map<string, nat>, seen: set<string>, out: map<string, nat>)
    requires Tallied(counts, seen, out)
    ensures forall o :: Count(out, o) == Count(counts, o) + One(o in seen)
    ensures out.Keys == counts.Keys + seen
  {
  }

  /** Counts one failing pod at everything above it, cycles included. */
  method Climb(owners: Owners, pod: string, counts: map<string, nat>, ghost edges: seq<Edge>)
    returns (out: map<string, nat>, ghost above: set<string>)
    requires Lists(owners, edges)
    ensures forall o :: o in above <==> Above(edges, pod, o)
    ensures forall o :: Count(out, o) == Count(counts, o) + One(o in above)
    ensures out.Keys == counts.Keys + above
  {
    hide Above, Lists, Frontier, AllOwners, Of, Tallied, One;
    TallyNone(counts);
    out := counts;
    var seen: set<string> := {};
    var queue := Of(owners, pod);
    FrontierStarts(edges, owners, pod);
    while queue != []
      invariant Frontier(edges, owners, pod, seen, queue)
      invariant Tallied(counts, seen, out)
      decreases |AllOwners(owners) - seen|, |queue|
    {
      var o := queue[0];
      FrontierMoves(edges, owners, pod, seen, queue);
      HeadIsOwner(edges, owners, pod, seen, queue);
      queue := queue[1..];
      if o in seen {
        continue;
      }
      SeenGrows(owners, seen, o);
      TallyOne(counts, seen, out, o);
      seen := seen + {o};
      out := out[o := Count(out, o) + 1];
      queue := queue + Of(owners, o);
    }
    above := seen;
    TallyAll(counts, seen, out);
    FrontierEnds(edges, owners, pod, seen);
  }

  lemma HeadIsOwner(edges: seq<Edge>, owners: Owners, pod: string, seen: set<string>, queue: seq<string>)
    requires Frontier(edges, owners, pod, seen, queue) && queue != []
    ensures queue[0] in AllOwners(owners)
  {
  }

  /** How many of the failing pods are below `o`. */
  ghost function FailingBelow(edges: seq<Edge>, failing: set<string>, o: string): nat {
    |set p | p in failing && Above(edges, p, o)|
  }

  /**
   * The controllers' part of applyHealth: an owner's number is exactly the number
   * of failing pods it reaches by one or more owner edges, for any owner graph.
   */
  method FailingUnder(edges: seq<Edge>, failing: set<string>) returns (failingUnder: map<string, nat>)
    ensures forall o :: Count(failingUnder, o) == FailingBelow(edges, failing, o)
    ensures forall o :: o in failingUnder <==> exists p :: p in failing && Above(edges, p, o)
  {
    hide Above, Lists;
    var owners := CollectOwners(edges);
    failingUnder := map[];
    var todo := failing;
    while todo != {}
      invariant todo <= failing
      invariant forall o :: Count(failingUnder, o) == FailingBelow(edges, failing - todo, o)
      invariant forall o :: o in failingUnder <==> exists p :: p in failing - todo && Above(edges, p, o)
      decreases todo
    {
      var pod :| pod in todo;
      ghost var done := failing - todo;
      ghost var above: set<string>;
      ghost var before := failingUnder;
      failingUnder, above := Climb(owners, pod, failingUnder, edges);
      todo := todo - {pod};
      assert failing - todo == done + {pod};
      forall o ensures Count(failingUnder, o) == FailingBelow(edges, failing - todo, o) {
        OneMoreBelow(edges, done, pod, o);
        assert Count(before, o) == FailingBelow(edges, done, o);
      }
    }
    assert failing - todo == failing;
  }

  lemma OneMoreBelow(edges: seq<Edge>, done: set<string>, pod: string, o: string)
    requires pod !in done
    ensures FailingBelow(edges, done + {pod}, o) == FailingBelow(edges, done, o) + One(Above(edges, pod, o))
  {
    hide Above;
    var less := set p | p in done && Above(edges, p, o);
    var more := set p | p in done + {pod} && Above(edges, p, o);
    assert more == if Above(edges, pod, o) then less + {pod} else less;
  }

  // ---- Ingresses ----

  /** One mention of a Service by an Ingress: its id, and its level there (Err when the port is missing). */
  datatype Mention = Mention(service: string, level: Level)

  datatype Verdict = Fine | Degraded | Down

  /** What the map of backends holds after the first mentions: every Service, at its worst. */
  predicate Worst(mentions: seq<Mention>, n: nat, backends: map<string, Level>)
    requires n <= |mentions|
  {
    && (forall id :: id in backends ==> exists i :: 0 <= i < n && mentions[i] == Mention(id, backends[id]))
    && (forall i :: 0 <= i < n ==> mentions[i].service in backends && Rank(mentions[i].level) <= Rank(backends[mentions[i].service]))
  }

  lemma WorstNext(mentions: seq<Mention>, n: nat, backends: map<string, Level>, next: map<string, Level>)
    requires n < |mentions| && Worst(mentions, n, backends)
    requires var m := mentions[n]; var seen := if m.service in backends then backends[m.service] else NoLevel;
      next == if Rank(m.level) > Rank(seen) || seen == NoLevel then backends[m.service := m.level] else backends
    ensures Worst(mentions, n + 1, next)
  {
    var m := mentions[n];
    forall id | id in next ensures exists i :: 0 <= i < n + 1 && mentions[i] == Mention(id, next[id]) {
      if next[id] == m.level && id == m.service {
        assert mentions[n] == Mention(id, next[id]);
      } else {
        var i :| 0 <= i < n && mentions[i] == Mention(id, backends[id]);
      }
    }
  }

  /** The Ingress is down when every Service it names is, at its worst mention; degraded when some has an issue. */
  method IngressVerdict(mentions: seq<Mention>) returns (v: Verdict)
    ensures v == Down <==> mentions != [] && forall i :: 0 <= i < |mentions| ==> Mention(mentions[i].service, Err) in mentions
    ensures v == Fine <==> forall i :: 0 <= i < |mentions| ==> mentions[i].level == NoLevel
  {
    hide Worst;
    var backends: map<string, Level> := map[];
    NoneIsWorst(mentions);
    for n := 0 to |mentions|
      invariant Worst(mentions, n, backends)
    {
      var m := mentions[n];
      ghost var before := backends;
      var seen := if m.service in backends then backends[m.service] else NoLevel;
      if Rank(m.level) > Rank(seen) || seen == NoLevel {
        backends := backends[m.service := m.level];
      }
      WorstNext(mentions, n, before, backends);
    }
    var bad, down := Levels(backends);
    v := if |backends| > 0 && down == |backends| then Down else if bad > 0 then Degraded else Fine;
    WorstDecides(mentions, backends);
  }

  lemma NoneIsWorst(mentions: seq<Mention>)
    ensures Worst(mentions, 0, map[])
  {
  }

  lemma WorstDecides(mentions: seq<Mention>, backends: map<string, Level>)
    requires Worst(mentions, |mentions|, backends)
    ensures |backends| > 0 <==> mentions != []
    ensures (forall id :: id in backends ==> backends[id] == Err)
            <==> forall i :: 0 <= i < |mentions| ==> Mention(mentions[i].service, Err) in mentions
    ensures (forall id :: id in backends ==> backends[id] == NoLevel)
            <==> forall i :: 0 <= i < |mentions| ==> mentions[i].level == NoLevel
  {
    hide Worst;
    SomeIffSome(mentions, backends);
    AllErrIff(mentions, backends);
    NoneIff(mentions, backends);
  }

  lemma SomeIffSome(mentions: seq<Mention>, backends: map<string, Level>)
    requires Worst(mentions, |mentions|, backends)
    ensures |backends| > 0 <==> mentions != []
  {
    assert mentions != [] ==> mentions[0].service in backends;
    if |backends| > 0 {
      var id :| id in backends.Keys;
    }
  }

  lemma AllErrIff(mentions: seq<Mention>, backends: map<string, Level>)
    requires Worst(mentions, |mentions|, backends)
    ensures (forall id :: id in backends ==> backends[id] == Err)
            <==> forall i :: 0 <= i < |mentions| ==> Mention(mentions[i].service, Err) in mentions
  {
    forall id | id in backends && (forall i :: 0 <= i < |mentions| ==> Mention(mentions[i].service, Err) in mentions)
      ensures backends[id] == Err
    {
      var i :| 0 <= i < |mentions| && mentions[i] == Mention(id, backends[id]);
      var j :| 0 <= j < |mentions| && mentions[j] == Mention(mentions[i].service, Err);
    }
    forall i | 0 <= i < |mentions| && (forall id :: id in backends ==> backends[id] == Err)
      ensures Mention(mentions[i].service, Err) in mentions
    {
      var j :| 0 <= j < |mentions| && mentions[j] == Mention(mentions[i].service, backends[mentions[i].service]);
    }
  }

  lemma NoneIff(mentions: seq<Mention>, backends: map<string, Level>)
    requires Worst(mentions, |mentions|, backends)
    ensures (forall id :: id in backends ==> backends[id] == NoLevel)
            <==> forall i :: 0 <= i < |mentions| ==> mentions[i].level == NoLevel
  {
  }

  /** The backends among `ids` at level `l`. */
  function At(backends: map<string, Level>, ids: set<string>, l: Level): set<string>
    requires ids <= backends.Keys
  {
    set id | id in ids && backends[id] == l
  }

  lemma AtOneMore(backends: map<string, Level>, ids: set<string>, id: string, l: Level)
    requires ids <= backends.Keys && id in backends && id !in ids
    ensures |At(backends, ids + {id}, l)| == |At(backends, ids, l)| + One(backends[id] == l)
  {
    assert At(backends, ids + {id}, l) == At(backends, ids, l) + (if backends[id] == l then {id} else {});
  }

  /** How many backends have an issue, and how many an error. */
  method Levels(backends: map<string, Level>) returns (bad: nat, down: nat)
    ensures bad == |At(backends, backends.Keys, Warn)| + |At(backends, backends.Keys, Err)|
    ensures down == |backends| <==> forall id :: id in backends ==> backends[id] == Err
    ensures bad == 0 <==> forall id :: id in backends ==> backends[id] == NoLevel
  {
    hide At;
    bad, down := 0, 0;
    var todo := backends.Keys;
    AtNothing(backends);
    assert backends.Keys - todo == {};
    while todo != {}
      invariant todo <= backends.Keys
      invariant bad == |At(backends, backends.Keys - todo, Warn)| + |At(backends, backends.Keys - todo, Err)|
      invariant down == |At(backends, backends.Keys - todo, Err)|
      decreases todo
    {
      var id :| id in todo;
      AtOneMore(backends, backends.Keys - todo, id, Warn);
      AtOneMore(backends, backends.Keys - todo, id, Err);
      assert backends.Keys - (todo - {id}) == backends.Keys - todo + {id};
      todo := todo - {id};
      var l := backends[id];
      if l == Err {
        down := down + 1;
      }
      if l != NoLevel {
        bad := bad + 1;
      }
    }
    assert backends.Keys - todo == backends.Keys;
    AtAll(backends);
  }

  lemma AtNothing(backends: map<string, Level>)
    ensures forall l :: At(backends, {}, l) == {}
  {
  }

  lemma AtAll(backends: map<string, Level>)
    ensures |At(backends, backends.Keys, Err)| == |backends| <==> forall id :: id in backends ==> backends[id] == Err
    ensures |At(backends, backends.Keys, Warn)| + |At(backends, backends.Keys, Err)| == 0
            <==> forall id :: id in backends ==> backends[id] == NoLevel
  {
    var errs, warns := At(backends, backends.Keys, Err), At(backends, backends.Keys, Warn);
    FullSubset(errs, backends.Keys);
    assert forall id :: id in backends && backends[id] != NoLevel ==> id in errs || id in warns;
  }

  lemma FullSubset(part: set<string>, whole: set<string>)
    requires part <= whole
    ensures |part| == |whole| <==> part == whole
  {
    assert whole == part + (whole - part);
  }
}
