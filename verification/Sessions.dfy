// The whole session protocol: any number of threads run the steps of NodeShells,
// ExecSessions and Handoff in any interleaving. What a run of any length keeps.

module Sessions {
  import opened Ownership
  import NodeShells
  import ExecSessions
  import Handoff

  datatype Work =
    | Node(n: NodeShells.Work)
    | Exec(x: ExecSessions.Work)
    | Hand(h: Handoff.Work)
    | Idle

  datatype World = World(
    node: NodeShells.Tables,
    execs: map<string, Session>,
    detached: map<string, Ticket>,
    threads: seq<seq<Work>>,  // what each thread has still to do
    pods: multiset<NodeShells.Event>,
    ends: multiset<ExecSessions.Event>,
    timers: multiset<Handoff.Event>,
    next: nat)                // the next unused number

  const IDLE := World(NodeShells.Tables(map[], {}), map[], map[], [], multiset{}, multiset{}, multiset{}, 0)

  // ---- One step of one thread ----

  function Cons(w: Work, rest: seq<Work>): seq<Work> { if w == Idle then rest else [w] + rest }

  /** Thread `i` did its first item and goes on with `a` and `b`; `c` starts a thread. */
  function Advance(x: World, i: nat, a: Work, b: Work, c: Work): World
    requires i < |x.threads| && x.threads[i] != []
  {
    x.(threads := x.threads[i := Cons(a, Cons(b, x.threads[i][1..]))] + [Cons(c, [])], next := x.next + 1)
  }

  function FromNode(n: NodeShells.Work): Work {
    match n
    case Idle => Idle
    case StartExec(s) => Exec(ExecSessions.Start(s))
    case Gone(s) => Exec(ExecSessions.Notify(s))
    case _ => Node(n)
  }

  function FromExec(e: ExecSessions.Work): Work {
    match e
    case Idle => Idle
    case HandBack(s) => Node(NodeShells.TakeOwn(s, Stream))
    case GiveUp(s) => Node(NodeShells.TakeOwn(s, Caller))
    case _ => Exec(e)
  }

  function FromHand(h: Handoff.Work): Work {
    match h
    case Idle => Idle
    case EndShell(k, s) => Node(NodeShells.TakeOwn(s, Timer(k)))
    case EndExec(k, s) => Exec(ExecSessions.TakeOwn(s, Timer(k)))
    case _ => Hand(h)
  }

  function NodeStep(x: World, i: nat, n: NodeShells.Work, ok: bool): World
    requires i < |x.threads| && x.threads[i] != []
  {
    var e := NodeShells.Do(x.node, n, ok);
    Advance(x.(node := e.t, pods := x.pods + multiset{e.event}), i, FromNode(e.next), FromNode(e.last), Idle)
  }

  function ExecStep(x: World, i: nat, n: ExecSessions.Work, ok: bool): World
    requires i < |x.threads| && x.threads[i] != []
  {
    var e := ExecSessions.Do(x.execs, n, ok);
    Advance(x.(execs := e.t, ends := x.ends + multiset{e.event} + multiset{e.other}), i,
            FromExec(e.next), FromExec(e.last), FromExec(e.spawn))
  }

  function HandStep(x: World, i: nat, h: Handoff.Work): World
    requires i < |x.threads| && x.threads[i] != []
  {
    var e := Handoff.Do(x.detached, x.node.shells, x.execs, h, x.next);
    Advance(x.(detached := e.t, timers := x.timers + multiset{e.event} + multiset{e.other}), i,
            FromHand(e.next), FromHand(e.last), FromHand(e.spawn))
  }

  /** Thread `i` takes its next step; `ok` is the answer its API call gets, if it makes one. */
  function Step(x: World, i: nat, ok: bool): World
    requires i < |x.threads| && x.threads[i] != []
  {
    match x.threads[i][0]
    case Node(n) => NodeStep(x, i, n, ok)
    case Exec(e) => ExecStep(x, i, e, ok)
    case Hand(h) => HandStep(x, i, h)
    case Idle => Advance(x, i, Idle, Idle, Idle)
  }

  // ---- Runs ----

  datatype Call =
    | CreateNodeShell(id: string)
    | CreateExec(id: string, containerGiven: bool)
    | CloseNodeShell(id: string)
    | CloseExec(id: string)
    | Detach(id: string)
    | Attach(id: string)

  /** The list of items a call starts with; `number` names the session it may make. */
  function Begin(call: Call, number: nat): seq<Work> {
    match call
    case CreateNodeShell(id) => [Node(NodeShells.TakeAny(id)), Node(NodeShells.FindNode(Session(id, number, true)))]
    case CreateExec(id, given) =>
      var s := Session(id, number, false);
      [Exec(if given then ExecSessions.Start(s) else ExecSessions.FindContainer(s))]
    case CloseNodeShell(id) => [Node(NodeShells.TakeAny(id)), Exec(ExecSessions.TakeAny(id))]
    case CloseExec(id) => [Exec(ExecSessions.TakeAny(id))]
    case Detach(id) => [Hand(Handoff.FindExec(id, true))]
    case Attach(id) => [Hand(Handoff.FindExec(id, false))]
  }

  /** A call arrives, or some thread takes its next step. */
  datatype Action = Open(call: Call) | Run(thread: nat, ok: bool)

  function Act(x: World, a: Action): World {
    match a
    case Open(call) => x.(threads := x.threads + [Begin(call, x.next)], next := x.next + 1)
    case Run(i, ok) => if i < |x.threads| && x.threads[i] != [] then Step(x, i, ok) else x
  }

  function Play(actions: seq<Action>): World {
    if actions == [] then IDLE else Act(Play(actions[..|actions| - 1]), actions[|actions| - 1])
  }

  // ---- Counting the outstanding steps ----

  function RoleOf(w: Work, s: Session): Role {
    match w
    case Node(n) => NodeShells.RoleOf(n, s)
    case Exec(e) => ExecSessions.RoleOf(e, s)
    case _ => NoRole
  }

  function InList(list: seq<Work>, r: Role, s: Session): nat {
    if list == [] then 0 else One(RoleOf(list[0], s) == r) + InList(list[1..], r, s)
  }

  /** How many outstanding steps have role `r` for `s`. */
  function HowMany(threads: seq<seq<Work>>, r: Role, s: Session): nat {
    if threads == [] then 0 else HowMany(threads[..|threads| - 1], r, s) + InList(threads[|threads| - 1], r, s)
  }

  lemma {:induction false} HowManyUpdate(threads: seq<seq<Work>>, i: nat, list: seq<Work>, r: Role, s: Session)
    requires i < |threads|
    ensures HowMany(threads[i := list], r, s) == HowMany(threads, r, s) - InList(threads[i], r, s) + InList(list, r, s)
    ensures HowMany(threads, r, s) >= InList(threads[i], r, s)
  {
    var n := |threads| - 1;
    if i == n {
      assert threads[i := list][..n] == threads[..n];
    } else {
      HowManyUpdate(threads[..n], i, list, r, s);
      assert threads[i := list][..n] == threads[..n][i := list];
    }
  }

  lemma HowManyGrows(threads: seq<seq<Work>>, list: seq<Work>, r: Role, s: Session)
    ensures HowMany(threads + [list], r, s) == HowMany(threads, r, s) + InList(list, r, s)
  {
    assert (threads + [list])[..|threads|] == threads;
  }

  lemma InCons(w: Work, rest: seq<Work>, r: Role, s: Session)
    requires r != NoRole
    ensures InList(Cons(w, rest), r, s) == One(RoleOf(w, s) == r) + InList(rest, r, s)
  {
    if w != Idle {
      assert ([w] + rest)[1..] == rest;
    }
  }

  /** A step gives up the role of the item it did and takes on those of what comes next. */
  lemma RolesAdvance(x: World, i: nat, a: Work, b: Work, c: Work, r: Role, s: Session)
    requires i < |x.threads| && x.threads[i] != [] && r != NoRole
    ensures HowMany(Advance(x, i, a, b, c).threads, r, s)
            == HowMany(x.threads, r, s) - One(RoleOf(x.threads[i][0], s) == r)
               + One(RoleOf(a, s) == r) + One(RoleOf(b, s) == r) + One(RoleOf(c, s) == r)
    ensures HowMany(x.threads, r, s) >= One(RoleOf(x.threads[i][0], s) == r)
  {
    var rest := x.threads[i][1..];
    var list := Cons(a, Cons(b, rest));
    HowManyUpdate(x.threads, i, list, r, s);
    HowManyGrows(x.threads[i := list], Cons(c, []), r, s);
    InCons(a, Cons(b, rest), r, s);
    InCons(b, rest, r, s);
    InCons(c, [], r, s);
  }

  // ---- What every run keeps, for one session ----

  /** The thread that may still open a session is one thread. */
  function Creators(x: World, s: Session): nat {
    HowMany(x.threads, Early, s) + HowMany(x.threads, Creating, s) + HowMany(x.threads, Checking, s)
    + HowMany(x.threads, Starting, s)
  }

  predicate PodKeeps(x: World, s: Session) {
    NodeShells.PodOk(Has(x.node.shells, s), s in x.node.named,
      HowMany(x.threads, Early, s), HowMany(x.threads, Creating, s), HowMany(x.threads, Checking, s),
      HowMany(x.threads, Dropping, s), HowMany(x.threads, Deleting, s),
      x.pods[NodeShells.PodCreated(s)], x.pods[NodeShells.PodDeleted(s)], x.pods[NodeShells.PodLost(s)])
  }

  predicate ExecKeeps(x: World, s: Session) {
    ExecSessions.ExecOk(Has(x.execs, s), Creators(x, s), x.ends[ExecSessions.Opened(s)],
      HowMany(x.threads, Tearing, s), x.ends[ExecSessions.TornDown(s)], x.ends[ExecSessions.Lost(s)],
      x.ends[ExecSessions.Taken(s)])
  }

  predicate EndKeeps(x: World, s: Session) {
    && HowMany(x.threads, Leaving, s) + HowMany(x.threads, Ending, s) + x.ends[ExecSessions.Closed(s)]
       == x.ends[ExecSessions.StreamWon(s)] <= x.ends[ExecSessions.Taken(s)]
    && (s.node && HowMany(x.threads, Ending, s) + x.ends[ExecSessions.Closed(s)] > 0 ==> !Has(x.node.shells, s))
  }

  predicate Keeps(x: World, s: Session) { PodKeeps(x, s) && ExecKeeps(x, s) && EndKeeps(x, s) }

  predicate Keyed(x: World) {
    KeyedById(x.node.shells) && KeyedById(x.execs) && Handoff.KeysOk(x.detached)
  }

  lemma NodeRoles(n: NodeShells.Work, s: Session)
    ensures RoleOf(FromNode(n), s) == NodeShells.RoleOf(n, s)
  {
  }

  /** Every role moves as the node shell's own step says. */
  lemma NodeStepRoles(x: World, i: nat, n: NodeShells.Work, ok: bool, r: Role, s: Session)
    requires i < |x.threads| && x.threads[i] != [] && x.threads[i][0] == Node(n) && r != NoRole
    ensures HowMany(NodeStep(x, i, n, ok).threads, r, s)
            == HowMany(x.threads, r, s) + NodeShells.Moves(r, n, NodeShells.Do(x.node, n, ok), s)
    ensures HowMany(x.threads, r, s) >= One(NodeShells.RoleOf(n, s) == r)
  {
    hide HowMany, NodeShells.Do, NodeShells.RoleOf, FromNode;
    var e := NodeShells.Do(x.node, n, ok);
    var x1 := x.(node := e.t, pods := x.pods + multiset{e.event});
    NodeRoles(e.next, s);
    NodeRoles(e.last, s);
    RolesAdvance(x1, i, FromNode(e.next), FromNode(e.last), Idle, r, s);
  }

  lemma ExecRoles(e: ExecSessions.Work, s: Session)
    ensures RoleOf(FromExec(e), s) == ExecSessions.RoleOf(e, s)
  {
  }

  lemma ExecStepRoles(x: World, i: nat, n: ExecSessions.Work, ok: bool, r: Role, s: Session)
    requires i < |x.threads| && x.threads[i] != [] && x.threads[i][0] == Exec(n) && r != NoRole
    ensures HowMany(ExecStep(x, i, n, ok).threads, r, s)
            == HowMany(x.threads, r, s) + ExecSessions.Moves(r, n, ExecSessions.Do(x.execs, n, ok), s)
    ensures HowMany(x.threads, r, s) >= One(ExecSessions.RoleOf(n, s) == r)
  {
    hide HowMany, ExecSessions.Do, ExecSessions.RoleOf, FromExec;
    var e := ExecSessions.Do(x.execs, n, ok);
    var x1 := x.(execs := e.t, ends := x.ends + multiset{e.event} + multiset{e.other});
    ExecRoles(e.next, s);
    ExecRoles(e.last, s);
    ExecRoles(e.spawn, s);
    RolesAdvance(x1, i, FromExec(e.next), FromExec(e.last), FromExec(e.spawn), r, s);
  }

  lemma HandRoles(h: Handoff.Work, s: Session)
    ensures RoleOf(FromHand(h), s) == NoRole
  {
  }

  lemma HandStepRoles(x: World, i: nat, h: Handoff.Work, r: Role, s: Session)
    requires i < |x.threads| && x.threads[i] != [] && x.threads[i][0] == Hand(h) && r != NoRole
    ensures HowMany(HandStep(x, i, h).threads, r, s) == HowMany(x.threads, r, s)
  {
    hide HowMany, Handoff.Do, FromHand;
    var e := Handoff.Do(x.detached, x.node.shells, x.execs, h, x.next);
    var x1 := x.(detached := e.t, timers := x.timers + multiset{e.event} + multiset{e.other});
    HandRoles(e.next, s);
    HandRoles(e.last, s);
    HandRoles(e.spawn, s);
    RolesAdvance(x1, i, FromHand(e.next), FromHand(e.last), FromHand(e.spawn), r, s);
  }

  predicate At(x: World, i: nat, w: Work) { i < |x.threads| && x.threads[i] != [] && x.threads[i][0] == w }

  lemma NodeStepPod(x: World, i: nat, n: NodeShells.Work, ok: bool, s: Session)
    requires At(x, i, Node(n)) && Keyed(x) && PodKeeps(x, s)
    ensures PodKeeps(NodeStep(x, i, n, ok), s)
  {
    hide HowMany, NodeShells.Do, NodeShells.RoleOf, NodeShells.Moves, NodeShells.PodOk, FromNode, Advance;
    NodeStepRoles(x, i, n, ok, Early, s);
    NodeStepRoles(x, i, n, ok, Creating, s);
    NodeStepRoles(x, i, n, ok, Checking, s);
    NodeStepRoles(x, i, n, ok, Dropping, s);
    NodeStepRoles(x, i, n, ok, Deleting, s);
    NodeStepTables(x, i, n, ok, s);
    NodeShells.PodKept(x.node, n, ok, s, HowMany(x.threads, Early, s), HowMany(x.threads, Creating, s),
      HowMany(x.threads, Checking, s), HowMany(x.threads, Dropping, s), HowMany(x.threads, Deleting, s),
      x.pods[NodeShells.PodCreated(s)], x.pods[NodeShells.PodDeleted(s)], x.pods[NodeShells.PodLost(s)]);
  }

  lemma NodeStepTables(x: World, i: nat, n: NodeShells.Work, ok: bool, s: Session)
    requires At(x, i, Node(n))
    ensures var e := NodeShells.Do(x.node, n, ok);
      var y := NodeStep(x, i, n, ok);
      && y.node == e.t && y.execs == x.execs && y.detached == x.detached && y.ends == x.ends && y.timers == x.timers
      && y.pods == x.pods + multiset{e.event}
  {
    hide NodeShells.Do, FromNode;
  }

  lemma NodeStepExec(x: World, i: nat, n: NodeShells.Work, ok: bool, s: Session)
    requires At(x, i, Node(n)) && ExecKeeps(x, s)
    ensures ExecKeeps(NodeStep(x, i, n, ok), s)
    ensures Creators(NodeStep(x, i, n, ok), s) <= Creators(x, s)
  {
    hide HowMany, NodeShells.Do, NodeShells.RoleOf, NodeShells.Moves, FromNode, Advance;
    NodeStepRoles(x, i, n, ok, Early, s);
    NodeStepRoles(x, i, n, ok, Creating, s);
    NodeStepRoles(x, i, n, ok, Checking, s);
    NodeStepRoles(x, i, n, ok, Starting, s);
    NodeStepRoles(x, i, n, ok, Tearing, s);
    NodeStepTables(x, i, n, ok, s);
    NodeShells.OneCreator(x.node, n, ok, s);
  }

  lemma NodeStepEnd(x: World, i: nat, n: NodeShells.Work, ok: bool, s: Session)
    requires At(x, i, Node(n)) && n != NodeShells.Gone(s) && ExecKeeps(x, s) && EndKeeps(x, s)
    ensures EndKeeps(NodeStep(x, i, n, ok), s)
  {
    hide HowMany, NodeShells.Do, NodeShells.RoleOf, NodeShells.Moves, FromNode, Advance;
    NodeStepRoles(x, i, n, ok, Early, s);
    NodeStepRoles(x, i, n, ok, Leaving, s);
    NodeStepRoles(x, i, n, ok, Ending, s);
    NodeStepTables(x, i, n, ok, s);
    NodeShells.OneCreator(x.node, n, ok, s);
    NodeShells.GoneFirst(x.node, n, ok, s);
  }

  lemma ExecStepTables(x: World, i: nat, n: ExecSessions.Work, ok: bool)
    requires At(x, i, Exec(n))
    ensures var e := ExecSessions.Do(x.execs, n, ok);
      var y := ExecStep(x, i, n, ok);
      && y.execs == e.t && y.node == x.node && y.detached == x.detached && y.pods == x.pods && y.timers == x.timers
      && y.ends == x.ends + multiset{e.event} + multiset{e.other}
  {
    hide ExecSessions.Do, FromExec;
  }

  lemma ExecStepPod(x: World, i: nat, n: ExecSessions.Work, ok: bool, s: Session)
    requires At(x, i, Exec(n)) && PodKeeps(x, s)
    ensures PodKeeps(ExecStep(x, i, n, ok), s)
  {
    hide HowMany, ExecSessions.Do, ExecSessions.RoleOf, NodeShells.PodOk, FromExec, Advance, ExecSessions.Moves;
    ExecStepRoles(x, i, n, ok, Early, s);
    ExecStepRoles(x, i, n, ok, Creating, s);
    ExecStepRoles(x, i, n, ok, Checking, s);
    ExecStepRoles(x, i, n, ok, Dropping, s);
    ExecStepRoles(x, i, n, ok, Deleting, s);
    ExecSessions.NoPodRoles(x.execs, n, ok, s);
    ExecStepTables(x, i, n, ok);
  }

  lemma ExecStepExec(x: World, i: nat, n: ExecSessions.Work, ok: bool, s: Session)
    requires At(x, i, Exec(n)) && Keyed(x) && ExecKeeps(x, s)
    ensures ExecKeeps(ExecStep(x, i, n, ok), s)
  {
    hide HowMany, ExecSessions.Do, ExecSessions.RoleOf, ExecSessions.ExecOk, FromExec, Advance, ExecSessions.Moves;
    ExecStepRoles(x, i, n, ok, Early, s);
    ExecStepRoles(x, i, n, ok, Creating, s);
    ExecStepRoles(x, i, n, ok, Checking, s);
    ExecStepRoles(x, i, n, ok, Starting, s);
    ExecStepRoles(x, i, n, ok, Tearing, s);
    ExecSessions.NoPodRoles(x.execs, n, ok, s);
    ExecStepTables(x, i, n, ok);
    ExecSessions.ExecKept(x.execs, n, ok, s, Creators(x, s), x.ends[ExecSessions.Opened(s)],
      HowMany(x.threads, Tearing, s), x.ends[ExecSessions.TornDown(s)], x.ends[ExecSessions.Lost(s)],
      x.ends[ExecSessions.Taken(s)]);
  }

  lemma ExecStepEnd(x: World, i: nat, n: ExecSessions.Work, ok: bool, s: Session)
    requires At(x, i, Exec(n)) && n != ExecSessions.HandBack(s) && EndKeeps(x, s)
    ensures EndKeeps(ExecStep(x, i, n, ok), s)
  {
    hide HowMany, ExecSessions.Do, ExecSessions.RoleOf, FromExec, Advance, ExecSessions.Moves;
    ExecStepRoles(x, i, n, ok, Leaving, s);
    ExecStepRoles(x, i, n, ok, Ending, s);
    ExecStepTables(x, i, n, ok);
    ExecSessions.EndKept(x.execs, n, ok, s);
  }

  lemma HandStepTables(x: World, i: nat, h: Handoff.Work)
    requires At(x, i, Hand(h))
    ensures var e := Handoff.Do(x.detached, x.node.shells, x.execs, h, x.next);
      var y := HandStep(x, i, h);
      && y.detached == e.t && y.node == x.node && y.execs == x.execs && y.pods == x.pods && y.ends == x.ends
      && y.timers == x.timers + multiset{e.event} + multiset{e.other}
  {
    hide Handoff.Do, FromHand;
  }

  lemma HandStepKeeps(x: World, i: nat, h: Handoff.Work, s: Session)
    requires At(x, i, Hand(h)) && Keeps(x, s)
    ensures Keeps(HandStep(x, i, h), s)
  {
    hide HowMany, Handoff.Do, NodeShells.PodOk, ExecSessions.ExecOk, FromHand, Advance;
    HandStepRoles(x, i, h, Early, s);
    HandStepRoles(x, i, h, Creating, s);
    HandStepRoles(x, i, h, Checking, s);
    HandStepRoles(x, i, h, Starting, s);
    HandStepRoles(x, i, h, Dropping, s);
    HandStepRoles(x, i, h, Deleting, s);
    HandStepRoles(x, i, h, Tearing, s);
    HandStepRoles(x, i, h, Leaving, s);
    HandStepRoles(x, i, h, Ending, s);
    HandStepTables(x, i, h);
  }

  // ---- Numbers not given out yet ----

  predicate Unused(x: World, s: Session) {
    && Creators(x, s) == 0 && HowMany(x.threads, Dropping, s) == 0 && !Has(x.node.shells, s)
    && x.pods[NodeShells.PodCreated(s)] == 0 && x.ends[ExecSessions.Opened(s)] == 0
  }

  lemma NodeStepUnused(x: World, i: nat, n: NodeShells.Work, ok: bool, s: Session)
    requires At(x, i, Node(n)) && KeyedById(x.node.shells) && ExecKeeps(x, s) && Unused(x, s)
    ensures Unused(NodeStep(x, i, n, ok), s)
  {
    hide HowMany, NodeShells.Do, NodeShells.RoleOf, NodeShells.Moves, FromNode, Advance;
    NodeStepExec(x, i, n, ok, s);
    NodeStepRoles(x, i, n, ok, Early, s);
    NodeStepRoles(x, i, n, ok, Creating, s);
    NodeStepRoles(x, i, n, ok, Dropping, s);
    NodeStepTables(x, i, n, ok, s);
    NodeShells.Untouched(x.node, n, ok, s);
  }

  lemma ExecStepUnused(x: World, i: nat, n: ExecSessions.Work, ok: bool, s: Session)
    requires At(x, i, Exec(n)) && Unused(x, s)
    ensures Unused(ExecStep(x, i, n, ok), s)
  {
    hide HowMany, ExecSessions.Do, ExecSessions.RoleOf, FromExec, Advance, ExecSessions.Moves;
    ExecStepRoles(x, i, n, ok, Early, s);
    ExecStepRoles(x, i, n, ok, Creating, s);
    ExecStepRoles(x, i, n, ok, Checking, s);
    ExecStepRoles(x, i, n, ok, Starting, s);
    ExecStepRoles(x, i, n, ok, Dropping, s);
    ExecSessions.NoPodRoles(x.execs, n, ok, s);
    ExecSessions.OneCreator(x.execs, n, ok, s);
    ExecStepTables(x, i, n, ok);
  }

  lemma HandStepUnused(x: World, i: nat, h: Handoff.Work, s: Session)
    requires At(x, i, Hand(h)) && Unused(x, s)
    ensures Unused(HandStep(x, i, h), s)
  {
    hide HowMany, Handoff.Do, FromHand, Advance;
    HandStepRoles(x, i, h, Early, s);
    HandStepRoles(x, i, h, Creating, s);
    HandStepRoles(x, i, h, Checking, s);
    HandStepRoles(x, i, h, Starting, s);
    HandStepRoles(x, i, h, Dropping, s);
    HandStepTables(x, i, h);
  }

  lemma IdleStepRoles(x: World, i: nat, r: Role, s: Session)
    requires At(x, i, Idle) && r != NoRole
    ensures HowMany(Advance(x, i, Idle, Idle, Idle).threads, r, s) == HowMany(x.threads, r, s)
  {
    RolesAdvance(x, i, Idle, Idle, Idle, r, s);
  }

  // ---- Items and timers ----

  /** Whether an outstanding item agrees with what the timers did; a hand-over is never left lying in a list. */
  predicate ItemOk(timers: multiset<Handoff.Event>, w: Work) {
    match w
    case Node(Gone(_)) => false
    case Node(TakeOwn(s, Timer(k))) => TimerMay(timers, k, s)
    case Exec(HandBack(_)) => false
    case Exec(TakeOwn(s, Timer(k))) => TimerMay(timers, k, s)
    case Hand(ShellOf(k)) => timers[Handoff.Fired(k)] > 0
    case Hand(ExecOf(k)) => timers[Handoff.Fired(k)] > 0
    case _ => true
  }

  /** The timer `k` got past its check, and `s` carries the history it was armed for. */
  predicate TimerMay(timers: multiset<Handoff.Event>, k: Ticket, s: Session) {
    timers[Handoff.Fired(k)] > 0 && s.id == k.id && s.number == k.history
  }

  predicate Items(timers: multiset<Handoff.Event>, threads: seq<seq<Work>>) {
    forall i, j :: 0 <= i < |threads| && 0 <= j < |threads[i]| ==> ItemOk(timers, threads[i][j])
  }

  predicate Logged(x: World, k: Ticket, s: Session) {
    (NodeShells.TimerTook(k, s) in x.pods || ExecSessions.TimerTook(k, s) in x.ends) ==> TimerMay(x.timers, k, s)
  }

  predicate TicketKeeps(x: World, k: Ticket) {
    && Handoff.TicketOk(Handoff.Holds(x.detached, k), x.timers[Handoff.Armed(k)], x.timers[Handoff.Fired(k)],
                        x.timers[Handoff.Attached(k)], x.timers[Handoff.Replaced(k)])
    && (k.timer >= x.next ==> x.timers[Handoff.Armed(k)] == 0)
  }

  lemma ItemsAdvance(x: World, i: nat, a: Work, b: Work, c: Work, before: multiset<Handoff.Event>)
    requires i < |x.threads| && x.threads[i] != [] && Items(before, x.threads)
    requires before <= x.timers && ItemOk(x.timers, a) && ItemOk(x.timers, b) && ItemOk(x.timers, c)
    ensures Items(x.timers, Advance(x, i, a, b, c).threads)
  {
    forall w | ItemOk(before, w) ensures ItemOk(x.timers, w) {
    }
    hide ItemOk;
  }

  lemma NodeStepItems(x: World, i: nat, n: NodeShells.Work, ok: bool)
    requires At(x, i, Node(n)) && Items(x.timers, x.threads)
    ensures Items(x.timers, NodeStep(x, i, n, ok).threads)
  {
    hide Items, NodeShells.Do, FromNode, Advance;
    var e := NodeShells.Do(x.node, n, ok);
    NextNodeItems(x.timers, x.node, n, ok);
    ItemsAdvance(x.(node := e.t, pods := x.pods + multiset{e.event}), i, FromNode(e.next), FromNode(e.last), Idle, x.timers);
  }

  lemma NextNodeItems(timers: multiset<Handoff.Event>, t: NodeShells.Tables, n: NodeShells.Work, ok: bool)
    ensures var e := NodeShells.Do(t, n, ok); ItemOk(timers, FromNode(e.next)) && ItemOk(timers, FromNode(e.last))
  {
  }

  lemma ExecStepItems(x: World, i: nat, n: ExecSessions.Work, ok: bool)
    requires At(x, i, Exec(n)) && Items(x.timers, x.threads)
    ensures Items(x.timers, ExecStep(x, i, n, ok).threads)
  {
    hide Items, ExecSessions.Do, FromExec, Advance;
    var e := ExecSessions.Do(x.execs, n, ok);
    NextExecItems(x.timers, x.execs, n, ok);
    ItemsAdvance(x.(execs := e.t, ends := x.ends + multiset{e.event} + multiset{e.other}), i,
                 FromExec(e.next), FromExec(e.last), FromExec(e.spawn), x.timers);
  }

  lemma NextExecItems(timers: multiset<Handoff.Event>, t: map<string, Session>, n: ExecSessions.Work, ok: bool)
    ensures var e := ExecSessions.Do(t, n, ok);
      ItemOk(timers, FromExec(e.next)) && ItemOk(timers, FromExec(e.last)) && ItemOk(timers, FromExec(e.spawn))
  {
  }

  lemma HandStepItems(x: World, i: nat, h: Handoff.Work)
    requires At(x, i, Hand(h)) && Keyed(x) && Items(x.timers, x.threads)
    ensures Items(HandStep(x, i, h).timers, HandStep(x, i, h).threads)
  {
    hide Items, Handoff.Do, FromHand, Advance, Keyed;
    var e := Handoff.Do(x.detached, x.node.shells, x.execs, h, x.next);
    var more := x.timers + multiset{e.event} + multiset{e.other};
    HandStepTables(x, i, h);
    HeadOk(x, i, Hand(h));
    NextHandItems(x, h);
    ItemsAdvance(x.(detached := e.t, timers := more), i, FromHand(e.next), FromHand(e.last), FromHand(e.spawn), x.timers);
  }

  lemma HeadOk(x: World, i: nat, w: Work)
    requires At(x, i, w) && Items(x.timers, x.threads)
    ensures ItemOk(x.timers, w)
  {
  }

  lemma NextHandItems(x: World, h: Handoff.Work)
    requires Keyed(x) && ItemOk(x.timers, Hand(h))
    ensures var e := Handoff.Do(x.detached, x.node.shells, x.execs, h, x.next);
      var more := x.timers + multiset{e.event} + multiset{e.other};
      ItemOk(more, FromHand(e.next)) && ItemOk(more, FromHand(e.last)) && ItemOk(more, FromHand(e.spawn))
  {
  }

  // ---- Every step of every run ----

  ghost predicate Inv(x: World) {
    && Keyed(x)
    && Items(x.timers, x.threads)
    && (forall s: Session :: Keeps(x, s) && (s.number >= x.next ==> Unused(x, s)))
    && (forall k: Ticket :: TicketKeeps(x, k))
    && (forall k: Ticket, s: Session :: Logged(x, k, s))
  }

  lemma NodeStepInv(x: World, i: nat, n: NodeShells.Work, ok: bool)
    requires At(x, i, Node(n)) && Inv(x)
    ensures Inv(NodeStep(x, i, n, ok))
  {
    hide Keeps, Unused, Items, NodeStep, TicketKeeps, Logged, Keyed;
    var y := NodeStep(x, i, n, ok);
    NodeStepKeyed(x, i, n, ok);
    HeadOk(x, i, Node(n));
    NodeStepItems(x, i, n, ok);
    forall s: Session ensures Keeps(y, s) && (s.number >= y.next ==> Unused(y, s)) {
      NodeStepSession(x, i, n, ok, s);
    }
    forall k: Ticket ensures TicketKeeps(y, k) {
      NodeStepTicket(x, i, n, ok, k);
    }
    forall k: Ticket, s: Session ensures Logged(y, k, s) {
      NodeStepLogged(x, i, n, ok, k, s);
    }
  }

  lemma NodeStepKeyed(x: World, i: nat, n: NodeShells.Work, ok: bool)
    requires At(x, i, Node(n)) && Keyed(x)
    ensures Keyed(NodeStep(x, i, n, ok)) && NodeStep(x, i, n, ok).timers == x.timers
  {
    hide NodeShells.Do, FromNode;
    NodeShells.KeysKept(x.node, n, ok);
  }

  lemma NodeStepSession(x: World, i: nat, n: NodeShells.Work, ok: bool, s: Session)
    requires At(x, i, Node(n)) && ItemOk(x.timers, Node(n)) && Keyed(x)
    requires Keeps(x, s) && (s.number >= x.next ==> Unused(x, s))
    ensures var y := NodeStep(x, i, n, ok); Keeps(y, s) && (s.number >= y.next ==> Unused(y, s))
  {
    hide NodeShells.Do, FromNode, PodKeeps, ExecKeeps, EndKeeps, Unused, Creators, HowMany;
    NodeStepPod(x, i, n, ok, s);
    NodeStepExec(x, i, n, ok, s);
    NodeStepEnd(x, i, n, ok, s);
    if s.number >= x.next {
      NodeStepUnused(x, i, n, ok, s);
    }
  }

  lemma NodeStepTicket(x: World, i: nat, n: NodeShells.Work, ok: bool, k: Ticket)
    requires At(x, i, Node(n)) && TicketKeeps(x, k)
    ensures TicketKeeps(NodeStep(x, i, n, ok), k)
  {
    hide NodeShells.Do, FromNode;
  }

  lemma NodeStepLogged(x: World, i: nat, n: NodeShells.Work, ok: bool, k: Ticket, s: Session)
    requires At(x, i, Node(n)) && ItemOk(x.timers, Node(n)) && Logged(x, k, s)
    ensures Logged(NodeStep(x, i, n, ok), k, s)
  {
    hide FromNode, Advance;
    NodeStepTables(x, i, n, ok, s);
  }

  lemma ExecStepInv(x: World, i: nat, n: ExecSessions.Work, ok: bool)
    requires At(x, i, Exec(n)) && Inv(x)
    ensures Inv(ExecStep(x, i, n, ok))
  {
    hide Keeps, Unused, Items, ExecStep, TicketKeeps, Logged, Keyed;
    var y := ExecStep(x, i, n, ok);
    ExecStepKeyed(x, i, n, ok);
    HeadOk(x, i, Exec(n));
    ExecStepItems(x, i, n, ok);
    forall s: Session ensures Keeps(y, s) && (s.number >= y.next ==> Unused(y, s)) {
      ExecStepSession(x, i, n, ok, s);
    }
    forall k: Ticket ensures TicketKeeps(y, k) {
      ExecStepTicket(x, i, n, ok, k);
    }
    forall k: Ticket, s: Session ensures Logged(y, k, s) {
      ExecStepLogged(x, i, n, ok, k, s);
    }
  }

  lemma ExecStepKeyed(x: World, i: nat, n: ExecSessions.Work, ok: bool)
    requires At(x, i, Exec(n)) && Keyed(x)
    ensures Keyed(ExecStep(x, i, n, ok)) && ExecStep(x, i, n, ok).timers == x.timers
  {
    hide ExecSessions.Do, FromExec;
    ExecSessions.KeysKept(x.execs, n, ok);
  }

  lemma ExecStepSession(x: World, i: nat, n: ExecSessions.Work, ok: bool, s: Session)
    requires At(x, i, Exec(n)) && ItemOk(x.timers, Exec(n)) && Keyed(x)
    requires Keeps(x, s) && (s.number >= x.next ==> Unused(x, s))
    ensures var y := ExecStep(x, i, n, ok); Keeps(y, s) && (s.number >= y.next ==> Unused(y, s))
  {
    hide ExecSessions.Do, FromExec, PodKeeps, ExecKeeps, EndKeeps, Unused, Creators, HowMany;
    ExecStepPod(x, i, n, ok, s);
    ExecStepExec(x, i, n, ok, s);
    ExecStepEnd(x, i, n, ok, s);
    if s.number >= x.next {
      ExecStepUnused(x, i, n, ok, s);
    }
  }

  lemma ExecStepTicket(x: World, i: nat, n: ExecSessions.Work, ok: bool, k: Ticket)
    requires At(x, i, Exec(n)) && TicketKeeps(x, k)
    ensures TicketKeeps(ExecStep(x, i, n, ok), k)
  {
    hide ExecSessions.Do, FromExec;
  }

  lemma ExecStepLogged(x: World, i: nat, n: ExecSessions.Work, ok: bool, k: Ticket, s: Session)
    requires At(x, i, Exec(n)) && ItemOk(x.timers, Exec(n)) && Logged(x, k, s)
    ensures Logged(ExecStep(x, i, n, ok), k, s)
  {
    hide FromExec, Advance;
    ExecStepTables(x, i, n, ok);
  }

  lemma HandStepInv(x: World, i: nat, h: Handoff.Work)
    requires At(x, i, Hand(h)) && Inv(x)
    ensures Inv(HandStep(x, i, h))
  {
    hide Keeps, Unused, Items, HandStep, TicketKeeps, Logged, Keyed;
    var y := HandStep(x, i, h);
    HandStepNext(x, i, h);
    HandStepItems(x, i, h);
    forall s: Session ensures Keeps(y, s) && (s.number >= y.next ==> Unused(y, s)) {
      HandStepKeeps(x, i, h, s);
      if s.number >= x.next {
        HandStepUnused(x, i, h, s);
      }
    }
    HandStepKeyed(x, i, h);
    forall k: Ticket ensures TicketKeeps(y, k) {
      HandStepTicket(x, i, h, k);
    }
    forall k: Ticket, s: Session ensures Logged(y, k, s) {
      HandStepLogged(x, i, h, k, s);
    }
  }

  lemma HandStepNext(x: World, i: nat, h: Handoff.Work)
    requires At(x, i, Hand(h))
    ensures HandStep(x, i, h).next == x.next + 1
  {
    hide Handoff.Do, FromHand;
  }

  lemma HandStepTicket(x: World, i: nat, h: Handoff.Work, k: Ticket)
    requires At(x, i, Hand(h)) && Keyed(x) && TicketKeeps(x, k)
    ensures TicketKeeps(HandStep(x, i, h), k)
  {
    hide Handoff.Do, FromHand, Advance;
    HandStepTables(x, i, h);
    HandStepNext(x, i, h);
    Handoff.TicketKept(x.detached, x.node.shells, x.execs, h, x.next, k, x.timers[Handoff.Armed(k)],
      x.timers[Handoff.Fired(k)], x.timers[Handoff.Attached(k)], x.timers[Handoff.Replaced(k)]);
    if k.timer != x.next {
      Handoff.ArmsOnlyNew(x.detached, x.node.shells, x.execs, h, x.next, k);
    }
  }

  lemma HandStepKeyed(x: World, i: nat, h: Handoff.Work)
    requires At(x, i, Hand(h)) && Keyed(x)
    ensures Keyed(HandStep(x, i, h))
  {
    hide Handoff.Do, FromHand, Advance;
    HandStepTables(x, i, h);
    Handoff.KeysKept(x.detached, x.node.shells, x.execs, h, x.next);
  }

  lemma HandStepLogged(x: World, i: nat, h: Handoff.Work, k: Ticket, s: Session)
    requires At(x, i, Hand(h)) && Logged(x, k, s)
    ensures Logged(HandStep(x, i, h), k, s)
  {
    hide Handoff.Do, FromHand, Advance;
    HandStepTables(x, i, h);
  }

  lemma IdleStepInv(x: World, i: nat)
    requires At(x, i, Idle) && Inv(x)
    ensures Inv(Advance(x, i, Idle, Idle, Idle))
  {
    hide Keeps, Unused, Items, TicketKeeps, Logged;
    var y := Advance(x, i, Idle, Idle, Idle);
    ItemsAdvance(x, i, Idle, Idle, Idle, x.timers);
    forall s: Session ensures Keeps(y, s) && (s.number >= y.next ==> Unused(y, s)) {
      SameRoles(x, y, i, s);
    }
    forall k: Ticket ensures TicketKeeps(y, k) {
      SameTimers(x, y, k);
    }
    forall k: Ticket, s: Session ensures Logged(y, k, s) {
      SameLogs(x, y, k, s);
    }
  }

  lemma SameRoles(x: World, y: World, i: nat, s: Session)
    requires At(x, i, Idle) && y == Advance(x, i, Idle, Idle, Idle)
    requires Keeps(x, s) && (s.number >= x.next ==> Unused(x, s))
    ensures Keeps(y, s) && (s.number >= y.next ==> Unused(y, s))
  {
    hide HowMany;
    forall r: Role | r != NoRole ensures HowMany(y.threads, r, s) == HowMany(x.threads, r, s) {
      IdleStepRoles(x, i, r, s);
    }
  }

  lemma SameTimers(x: World, y: World, k: Ticket)
    requires TicketKeeps(x, k) && y.detached == x.detached && y.timers == x.timers && y.next == x.next + 1
    ensures TicketKeeps(y, k)
  {
  }

  lemma SameLogs(x: World, y: World, k: Ticket, s: Session)
    requires Logged(x, k, s) && y.pods == x.pods && y.ends == x.ends && y.timers == x.timers
    ensures Logged(y, k, s)
  {
  }

  lemma StepInv(x: World, i: nat, ok: bool)
    requires i < |x.threads| && x.threads[i] != [] && Inv(x)
    ensures Inv(Step(x, i, ok))
  {
    hide Inv, NodeStep, ExecStep, HandStep, Advance;
    match x.threads[i][0]
    case Node(n) => NodeStepInv(x, i, n, ok);
    case Exec(e) => ExecStepInv(x, i, e, ok);
    case Hand(h) => HandStepInv(x, i, h);
    case Idle => IdleStepInv(x, i);
  }

  lemma ShortList(a: Work, b: Work, r: Role, s: Session)
    ensures InList([a], r, s) == One(RoleOf(a, s) == r)
    ensures InList([a, b], r, s) == One(RoleOf(a, s) == r) + One(RoleOf(b, s) == r)
  {
    hide RoleOf;
    assert [a, b][1..] == [b] && [b][1..] == [] && [a][1..] == [];
  }

  /** A call makes at most one creator, and for its own new session only. */
  lemma BeginRoles(call: Call, number: nat, r: Role, s: Session)
    requires r != NoRole
    ensures InList(Begin(call, number), r, s) <= if s.number == number && (r == Early || r == Starting) then 1 else 0
    ensures InList(Begin(call, number), Early, s) + InList(Begin(call, number), Starting, s) <= 1
  {
    hide InList, HowMany;
    var list := Begin(call, number);
    var first, second := list[0], if |list| > 1 then list[1] else Idle;
    assert list == [first] || list == [first, second];
    ShortList(first, second, r, s);
    ShortList(first, second, Early, s);
    ShortList(first, second, Starting, s);
  }

  lemma OpenSession(x: World, call: Call, s: Session)
    requires Keeps(x, s) && (s.number >= x.next ==> Unused(x, s))
    ensures var y := Act(x, Open(call)); Keeps(y, s) && (s.number >= y.next ==> Unused(y, s))
  {
    hide HowMany, Begin, InList;
    var list := Begin(call, x.next);
    forall r: Role | r != NoRole
      ensures HowMany(x.threads + [list], r, s) == HowMany(x.threads, r, s) + InList(list, r, s)
      ensures InList(list, r, s) <= if s.number == x.next && (r == Early || r == Starting) then 1 else 0
      ensures InList(list, Early, s) + InList(list, Starting, s) <= 1
    {
      HowManyGrows(x.threads, list, r, s);
      BeginRoles(call, x.next, r, s);
    }
  }

  lemma OpenItems(x: World, call: Call)
    requires Items(x.timers, x.threads)
    ensures Items(x.timers, Act(x, Open(call)).threads)
  {
    assert forall j :: 0 <= j < |Begin(call, x.next)| ==> ItemOk(x.timers, Begin(call, x.next)[j]);
    hide ItemOk, Begin;
  }

  lemma OpenInv(x: World, call: Call)
    requires Inv(x)
    ensures Inv(Act(x, Open(call)))
  {
    hide Keeps, Unused, Items, Begin, TicketKeeps, Logged;
    var y := Act(x, Open(call));
    OpenItems(x, call);
    forall s: Session ensures Keeps(y, s) && (s.number >= y.next ==> Unused(y, s)) {
      OpenSession(x, call, s);
    }
    forall k: Ticket ensures TicketKeeps(y, k) {
      SameTimers(x, y, k);
    }
    forall k: Ticket, s: Session ensures Logged(y, k, s) {
      SameLogs(x, y, k, s);
    }
  }

  lemma {:induction false} EveryRun(actions: seq<Action>)
    ensures Inv(Play(actions))
  {
    if actions != [] {
      var n := |actions| - 1;
      EveryRun(actions[..n]);
      ActInv(Play(actions[..n]), actions[n]);
    }
  }

  lemma ActInv(x: World, a: Action)
    requires Inv(x)
    ensures Inv(Act(x, a))
  {
    hide Inv, Step;
    match a
    case Open(call) => OpenInv(x, call);
    case Run(i, ok) =>
      if i < |x.threads| && x.threads[i] != [] {
        StepInv(x, i, ok);
      }
  }
}
