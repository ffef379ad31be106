// internal/services/nodeShellServices.go:86-209, podExecServices.go:46-160 and
// execHandoffServices.go: what each call does when it is left alone, whatever its API
// calls answer.

module SessionCalls {
  import opened Ownership
  import opened Sessions
  import opened SessionRuns
  import NodeShells
  import ExecSessions
  import Handoff

  type Registry = map<string, Session>

  /** Thread `i` takes a step for each of the answers, and no other thread moves. */
  function Runs(x: World, i: nat, oks: seq<bool>): World
    decreases |oks|
  {
    if oks == [] then x else Runs(Act(x, Run(i, oks[0])), i, oks[1..])
  }

  /** The thread has nothing left to do. */
  predicate IsDone(x: World, i: nat) { i < |x.threads| && x.threads[i] == [] }

  lemma {:induction false} DoneStays(x: World, i: nat, oks: seq<bool>)
    requires IsDone(x, i)
    ensures Runs(x, i, oks) == x
    decreases |oks|
  {
    if oks != [] {
      DoneStays(x, i, oks[1..]);
    }
  }

  // ---- Logs ----

  /** What happened to pods, and to exec sessions. */
  function PodLog(x: World): multiset<NodeShells.Event> { x.pods[NodeShells.Silent := 0] }

  function ExecLog(x: World): multiset<ExecSessions.Event> { x.ends[ExecSessions.Silent := 0] }

  function TimerLog(x: World): multiset<Handoff.Event> { x.timers[Handoff.Silent := 0] }

  function TimerNews(e: Handoff.Event): multiset<Handoff.Event> { if e.Silent? then multiset{} else multiset{e} }

  lemma TimerLogged(x: World, y: World, e: Handoff.Event, f: Handoff.Event)
    requires y.timers == x.timers + multiset{e} + multiset{f}
    ensures TimerLog(y) == TimerLog(x) + TimerNews(e) + TimerNews(f)
  {
  }

  function PodNews(e: NodeShells.Event): multiset<NodeShells.Event> { if e.Silent? then multiset{} else multiset{e} }

  function ExecNews(e: ExecSessions.Event): multiset<ExecSessions.Event> { if e.Silent? then multiset{} else multiset{e} }

  lemma PodLogged(x: World, y: World, e: NodeShells.Event)
    requires y.pods == x.pods + multiset{e}
    ensures PodLog(y) == PodLog(x) + PodNews(e)
  {
  }

  lemma ExecLogged(x: World, y: World, e: ExecSessions.Event, f: ExecSessions.Event)
    requires y.ends == x.ends + multiset{e} + multiset{f}
    ensures ExecLog(y) == ExecLog(x) + ExecNews(e) + ExecNews(f)
  {
  }

  // ---- One step ----

  /** The other threads of `x` wait. */
  predicate Wait(x: World, y: World, i: nat) {
    |x.threads| <= |y.threads| && forall j :: 0 <= j < |x.threads| && j != i ==> y.threads[j] == x.threads[j]
  }

  lemma NodeOne(x: World, i: nat, n: NodeShells.Work, rest: seq<Work>, ok: bool)
    requires List(x, i, [Node(n)] + rest)
    ensures var y := Act(x, Run(i, ok)); var e := NodeShells.Do(x.node, n, ok);
      && List(y, i, Cons(FromNode(e.next), Cons(FromNode(e.last), rest))) && Wait(x, y, i)
      && y.node == e.t && PodLog(y) == PodLog(x) + PodNews(e.event) && ExecsSame(x, y) && HandoffsSame(x, y)
  {
    hide NodeShells.Do, FromNode, Cons, PodLog;
    assert ([Node(n)] + rest)[1..] == rest;
    PodLogged(x, Act(x, Run(i, ok)), NodeShells.Do(x.node, n, ok).event);
  }

  lemma ExecOne(x: World, i: nat, n: ExecSessions.Work, rest: seq<Work>, ok: bool)
    requires List(x, i, [Exec(n)] + rest)
    ensures var y := Act(x, Run(i, ok)); var e := ExecSessions.Do(x.execs, n, ok);
      && List(y, i, Cons(FromExec(e.next), Cons(FromExec(e.last), rest))) && Wait(x, y, i)
      && List(y, |x.threads|, Cons(FromExec(e.spawn), []))
      && y.execs == e.t && ExecLog(y) == ExecLog(x) + ExecNews(e.event) + ExecNews(e.other) && ShellsSame(x, y) && HandoffsSame(x, y)
  {
    hide ExecSessions.Do, FromExec, Cons, ExecLog;
    assert ([Exec(n)] + rest)[1..] == rest;
    ExecLogged(x, Act(x, Run(i, ok)), ExecSessions.Do(x.execs, n, ok).event, ExecSessions.Do(x.execs, n, ok).other);
  }

  lemma HandOne(x: World, i: nat, h: Handoff.Work, rest: seq<Work>, ok: bool)
    requires List(x, i, [Hand(h)] + rest)
    ensures var y := Act(x, Run(i, ok)); var e := Handoff.Do(x.detached, x.node.shells, x.execs, h, x.next);
      && List(y, i, Cons(FromHand(e.next), Cons(FromHand(e.last), rest))) && Wait(x, y, i)
      && List(y, |x.threads|, Cons(FromHand(e.spawn), []))
      && y.detached == e.t && TimerLog(y) == TimerLog(x) + TimerNews(e.event) + TimerNews(e.other)
      && ShellsSame(x, y) && ExecsSame(x, y)
  {
    hide Handoff.Do, FromHand, Cons, TimerLog;
    assert ([Hand(h)] + rest)[1..] == rest;
    TimerLogged(x, Act(x, Run(i, ok)), Handoff.Do(x.detached, x.node.shells, x.execs, h, x.next).event,
                Handoff.Do(x.detached, x.node.shells, x.execs, h, x.next).other);
  }

  lemma RunsOn(x: World, i: nat, oks: seq<bool>)
    requires oks != []
    ensures Runs(x, i, oks) == Runs(Act(x, Run(i, oks[0])), i, oks[1..])
  {
  }

  /** A call's thread comes last, and nothing has happened yet. */
  lemma Opens(x: World, call: Call)
    ensures var y := Act(x, Open(call));
      && List(y, |x.threads|, Begin(call, x.next)) && Wait(x, y, |x.threads|)
      && ShellsSame(x, y) && ExecsSame(x, y) && HandoffsSame(x, y)
  {
    hide Begin;
  }

  // ---- What a release does ----

  /** The node shell under `id`, if any, is gone; its pod, if named, is asked to be deleted, and nothing else happens to shells and pods. */
  predicate ShellReleased(x: World, y: World, id: string) {
    && y.node.shells == x.node.shells - {id} && y.node.named == x.node.named
    && PodLog(y) == PodLog(x) + if id in x.node.shells && x.node.shells[id] in x.node.named
                                then multiset{NodeShells.PodDeleted(x.node.shells[id])} else multiset{}
  }

  predicate ShellsSame(x: World, y: World) { y.node == x.node && PodLog(y) == PodLog(x) }

  /** The exec session under `id`, if any, is taken and torn down, once each, and nothing else happens to exec sessions. */
  predicate ExecReleased(x: World, y: World, id: string) {
    && y.execs == x.execs - {id}
    && ExecLog(y) == ExecLog(x) + if id in x.execs then ReleaseNews(x.execs[id]) else multiset{}
  }

  function ReleaseNews(s: Session): multiset<ExecSessions.Event> {
    multiset{ExecSessions.Taken(s)} + multiset{ExecSessions.TornDown(s)}
  }

  predicate ExecsSame(x: World, y: World) { y.execs == x.execs && ExecLog(y) == ExecLog(x) }

  predicate HandoffsSame(x: World, y: World) { y.detached == x.detached && TimerLog(y) == TimerLog(x) }

  lemma Waits(x: World, y: World, z: World, i: nat)
    requires Wait(x, y, i) && Wait(y, z, i)
    ensures Wait(x, z, i)
  {
  }

  lemma TakeShell(x: World, i: nat, id: string, rest: seq<Work>, oks: seq<bool>) returns (y: World, left: seq<bool>)
    requires List(x, i, [Node(NodeShells.TakeAny(id))] + rest) && |oks| >= 2
    ensures Runs(x, i, oks) == Runs(y, i, left) && |left| >= |oks| - 2 && (AllTrue(oks) ==> AllTrue(left))
    ensures List(y, i, rest) && Wait(x, y, i) && ShellReleased(x, y, id) && ExecsSame(x, y) && HandoffsSame(x, y)
  {
    hide Act, List, PodLog, ExecLog;
    NodeOne(x, i, NodeShells.TakeAny(id), rest, oks[0]);
    RunsOn(x, i, oks);
    y, left := Act(x, Run(i, oks[0])), oks[1..];
    if id in x.node.shells {
      var x1 := y;
      NodeOne(x1, i, NodeShells.DropPod(x.node.shells[id]), rest, left[0]);
      RunsOn(x1, i, left);
      y, left := Act(x1, Run(i, left[0])), left[1..];
      Waits(x, x1, y, i);
    }
  }

  lemma TakeStep(x: World, i: nat, id: string, rest: seq<Work>, ok: bool)
    requires List(x, i, [Exec(ExecSessions.TakeAny(id))] + rest)
    ensures var y := Act(x, Run(i, ok));
      && Wait(x, y, i) && ShellsSame(x, y) && HandoffsSame(x, y) && y.execs == x.execs - {id}
      && (id !in x.execs ==> List(y, i, rest) && ExecLog(y) == ExecLog(x))
      && (id in x.execs ==>
            List(y, i, [Exec(ExecSessions.TearDown(x.execs[id]))] + rest) && ExecLog(y) == ExecLog(x) + multiset{ExecSessions.Taken(x.execs[id])})
  {
    hide Act, ExecLog, List, ShellsSame, HandoffsSame, Wait;
    ExecOne(x, i, ExecSessions.TakeAny(id), rest, ok);
  }

  lemma TearStep(x: World, i: nat, s: Session, rest: seq<Work>, ok: bool)
    requires List(x, i, [Exec(ExecSessions.TearDown(s))] + rest)
    ensures var y := Act(x, Run(i, ok));
      && Wait(x, y, i) && ShellsSame(x, y) && HandoffsSame(x, y) && y.execs == x.execs
      && List(y, i, rest) && ExecLog(y) == ExecLog(x) + multiset{ExecSessions.TornDown(s)}
  {
    hide Act, ExecLog, List, ShellsSame, HandoffsSame, Wait;
    ExecOne(x, i, ExecSessions.TearDown(s), rest, ok);
  }

  lemma TakeExec(x: World, i: nat, id: string, rest: seq<Work>, oks: seq<bool>) returns (y: World, left: seq<bool>)
    requires List(x, i, [Exec(ExecSessions.TakeAny(id))] + rest) && |oks| >= 2
    ensures Runs(x, i, oks) == Runs(y, i, left) && |left| >= |oks| - 2
    ensures List(y, i, rest) && Wait(x, y, i) && ExecReleased(x, y, id) && ShellsSame(x, y) && HandoffsSame(x, y)
  {
    hide Act, List, ExecLog, PodLog, Wait, Runs;
    TakeStep(x, i, id, rest, oks[0]);
    RunsOn(x, i, oks);
    y, left := Act(x, Run(i, oks[0])), oks[1..];
    if id in x.execs {
      var x1 := y;
      TearStep(x1, i, x.execs[id], rest, left[0]);
      RunsOn(x1, i, left);
      y, left := Act(x1, Run(i, left[0])), left[1..];
      Waits(x, x1, y, i);
    }
  }

  // ---- Closing ----

  /**
   * Closing a node shell: left alone for four steps the call is done, and `id` is in
   * neither registry. The named pod of the shell held there is asked to be deleted once,
   * its exec session is torn down once, and nothing else is touched.
   */
  lemma CloseNodeShellAlone(x: World, id: string, oks: seq<bool>)
    requires |oks| >= 4
    ensures var i := |x.threads|;
      var y := Runs(Act(x, Open(CloseNodeShell(id))), i, oks);
      IsDone(y, i) && Wait(x, y, i) && ShellReleased(x, y, id) && ExecReleased(x, y, id) && HandoffsSame(x, y)
  {
    hide Act, Runs, PodLog, ExecLog;
    var i := |x.threads|;
    var x0 := Act(x, Open(CloseNodeShell(id)));
    Opens(x, CloseNodeShell(id));
    assert Begin(CloseNodeShell(id), x.next) == [Node(NodeShells.TakeAny(id))] + [Exec(ExecSessions.TakeAny(id))];
    var x1, left := TakeShell(x0, i, id, [Exec(ExecSessions.TakeAny(id))], oks);
    assert [Exec(ExecSessions.TakeAny(id))] == [Exec(ExecSessions.TakeAny(id))] + [];
    var x2, more := TakeExec(x1, i, id, [], left);
    DoneStays(x2, i, more);
    Waits(x, x0, x1, i);
    Waits(x, x1, x2, i);
  }

  /** Closing an exec session: it is out of its registry and torn down once, and nothing else is touched. */
  lemma CloseExecAlone(x: World, id: string, oks: seq<bool>)
    requires |oks| >= 2
    ensures var i := |x.threads|;
      var y := Runs(Act(x, Open(CloseExec(id))), i, oks);
      IsDone(y, i) && Wait(x, y, i) && ExecReleased(x, y, id) && ShellsSame(x, y) && HandoffsSame(x, y)
  {
    hide Act, Runs, PodLog, ExecLog;
    var i := |x.threads|;
    var x0 := Act(x, Open(CloseExec(id)));
    Opens(x, CloseExec(id));
    assert Begin(CloseExec(id), x.next) == [Exec(ExecSessions.TakeAny(id))] + [];
    var x1, left := TakeExec(x0, i, id, [], oks);
    DoneStays(x1, i, left);
    Waits(x, x0, x1, i);
  }

  // ---- Opening an exec session ----

  /** What was under the id of `s` is released, and `s` is registered and opened in its place. */
  predicate Opened(x: World, y: World, s: Session) {
    && y.execs == x.execs[s.id := s]
    && ExecLog(y) == ExecLog(x) + (if s.id in x.execs then ReleaseNews(x.execs[s.id]) else multiset{}) + multiset{ExecSessions.Opened(s)}
  }

  lemma StartStep(x: World, i: nat, s: Session, ok: bool)
    requires List(x, i, [Exec(ExecSessions.Start(s))])
    ensures var y := Act(x, Run(i, ok));
      && Wait(x, y, i) && ShellsSame(x, y) && HandoffsSame(x, y) && y.execs == x.execs - {s.id}
      && (s.id !in x.execs ==> List(y, i, [Exec(ExecSessions.NewExecutor(s))]) && ExecLog(y) == ExecLog(x))
      && (s.id in x.execs ==>
            List(y, i, [Exec(ExecSessions.TearDown(x.execs[s.id]))] + [Exec(ExecSessions.NewExecutor(s))])
            && ExecLog(y) == ExecLog(x) + multiset{ExecSessions.Taken(x.execs[s.id])})
  {
    hide Act, ExecLog, ShellsSame, HandoffsSame, Wait;
    assert [Exec(ExecSessions.Start(s))] + [] == [Exec(ExecSessions.Start(s))];
    ExecOne(x, i, ExecSessions.Start(s), [], ok);
  }

  lemma MakeRoom(x: World, i: nat, s: Session, oks: seq<bool>) returns (y: World, left: seq<bool>)
    requires List(x, i, [Exec(ExecSessions.Start(s))]) && |oks| >= 2
    ensures Runs(x, i, oks) == Runs(y, i, left) && |left| >= |oks| - 2 && (AllTrue(oks) ==> AllTrue(left))
    ensures List(y, i, [Exec(ExecSessions.NewExecutor(s))]) && Wait(x, y, i) && ExecReleased(x, y, s.id) && ShellsSame(x, y) && HandoffsSame(x, y)
  {
    hide Act, List, ExecLog, PodLog, Wait, Runs;
    StartStep(x, i, s, oks[0]);
    RunsOn(x, i, oks);
    y, left := Act(x, Run(i, oks[0])), oks[1..];
    if s.id in x.execs {
      var x1 := y;
      TearStep(x1, i, x.execs[s.id], [Exec(ExecSessions.NewExecutor(s))], left[0]);
      RunsOn(x1, i, left);
      y, left := Act(x1, Run(i, left[0])), left[1..];
      Waits(x, x1, y, i);
    }
  }

  predicate AllTrue(oks: seq<bool>) { forall k :: 0 <= k < |oks| ==> oks[k] }

  lemma ExecutorStep(x: World, i: nat, s: Session, ok: bool)
    requires List(x, i, [Exec(ExecSessions.NewExecutor(s))])
    ensures var y := Act(x, Run(i, ok));
      && Wait(x, y, i) && ShellsSame(x, y) && HandoffsSame(x, y) && ExecsSame(x, y)
      && List(y, i, if ok then [Exec(ExecSessions.Register(s))] else if s.node then [Node(NodeShells.TakeOwn(s, Caller))] else [])
  {
    hide Act, ExecLog, ShellsSame, HandoffsSame, Wait;
    assert [Exec(ExecSessions.NewExecutor(s))] + [] == [Exec(ExecSessions.NewExecutor(s))];
    ExecOne(x, i, ExecSessions.NewExecutor(s), [], ok);
  }

  lemma RegisterStep(x: World, i: nat, s: Session, ok: bool)
    requires List(x, i, [Exec(ExecSessions.Register(s))]) && s.id !in x.execs
    ensures var y := Act(x, Run(i, ok));
      && Wait(x, y, i) && ShellsSame(x, y) && HandoffsSame(x, y) && IsDone(y, i)
      && List(y, |x.threads|, [Exec(ExecSessions.StreamEnd(s))])
      && y.execs == x.execs[s.id := s] && ExecLog(y) == ExecLog(x) + multiset{ExecSessions.Opened(s)}
  {
    hide Act, ExecLog, ShellsSame, HandoffsSame, Wait;
    assert [Exec(ExecSessions.Register(s))] + [] == [Exec(ExecSessions.Register(s))];
    ExecOne(x, i, ExecSessions.Register(s), [], ok);
  }

  /** The stream's own thread, and the thread that ended in it. */
  predicate Streams(y: World, j: nat, s: Session) { List(y, j, [Exec(ExecSessions.StreamEnd(s))]) }

  /** startExecSession on its own: up, or what it found is released and nothing else. A node shell is given up then. */
  lemma ExecStarts(x: World, i: nat, s: Session, oks: seq<bool>) returns (y: World, left: seq<bool>, up: bool, j: nat)
    requires List(x, i, [Exec(ExecSessions.Start(s))]) && |oks| >= 4
    ensures Runs(x, i, oks) == Runs(y, i, left) && |left| >= |oks| - 4 && (AllTrue(oks) ==> up)
    ensures Wait(x, y, i) && ShellsSame(x, y) && HandoffsSame(x, y)
    ensures up ==> IsDone(y, i) && Opened(x, y, s) && j >= |x.threads| && Streams(y, j, s)
    ensures !up ==> List(y, i, if s.node then [Node(NodeShells.TakeOwn(s, Caller))] else []) && ExecReleased(x, y, s.id)
  {
    hide Act, List, ExecLog, PodLog, Runs;
    j := 0;
    var x1, mid := MakeRoom(x, i, s, oks);
    up := mid[0];
    ExecutorStep(x1, i, s, up);
    RunsOn(x1, i, mid);
    y, left := Act(x1, Run(i, up)), mid[1..];
    Waits(x, x1, y, i);
    if up {
      var x2 := y;
      RegisterStep(x2, i, s, left[0]);
      RunsOn(x2, i, left);
      j := |x2.threads|;
      y, left := Act(x2, Run(i, left[0])), left[1..];
      Waits(x, x2, y, i);
      assert x.execs - {s.id} == x2.execs && x2.execs[s.id := s] == x.execs[s.id := s];
    }
  }

  // ---- Giving a node shell up ----

  lemma OwnStep(x: World, i: nat, s: Session, ok: bool)
    requires List(x, i, [Node(NodeShells.TakeOwn(s, Caller))])
    ensures var y := Act(x, Run(i, ok));
      && Wait(x, y, i) && ExecsSame(x, y) && HandoffsSame(x, y) && PodLog(y) == PodLog(x) && y.node.named == x.node.named
      && (Has(x.node.shells, s) ==> List(y, i, [Node(NodeShells.DropPod(s))]) && y.node.shells == x.node.shells - {s.id})
      && (!Has(x.node.shells, s) ==> List(y, i, []) && y.node == x.node)
  {
    hide Act, PodLog, ExecsSame, HandoffsSame, Wait;
    assert [Node(NodeShells.TakeOwn(s, Caller))] + [] == [Node(NodeShells.TakeOwn(s, Caller))];
    NodeOne(x, i, NodeShells.TakeOwn(s, Caller), [], ok);
  }

  lemma DropStep(x: World, i: nat, s: Session, ok: bool)
    requires List(x, i, [Node(NodeShells.DropPod(s))])
    ensures var y := Act(x, Run(i, ok));
      && Wait(x, y, i) && ExecsSame(x, y) && HandoffsSame(x, y) && y.node == x.node && List(y, i, [])
      && PodLog(y) == PodLog(x) + if s in x.node.named then multiset{NodeShells.PodDeleted(s)} else multiset{}
  {
    hide Act, PodLog, ExecsSame, HandoffsSame, Wait;
    assert [Node(NodeShells.DropPod(s))] + [] == [Node(NodeShells.DropPod(s))];
    NodeOne(x, i, NodeShells.DropPod(s), [], ok);
  }

  lemma GivesUp(x: World, i: nat, s: Session, oks: seq<bool>) returns (y: World, left: seq<bool>)
    requires List(x, i, [Node(NodeShells.TakeOwn(s, Caller))]) && Has(x.node.shells, s) && |oks| >= 2
    ensures Runs(x, i, oks) == Runs(y, i, left) && |left| >= |oks| - 2
    ensures IsDone(y, i) && Wait(x, y, i) && ShellReleased(x, y, s.id) && ExecsSame(x, y) && HandoffsSame(x, y)
  {
    hide Act, ExecLog, PodLog, Runs;
    OwnStep(x, i, s, oks[0]);
    RunsOn(x, i, oks);
    var x1 := Act(x, Run(i, oks[0]));
    DropStep(x1, i, s, oks[1]);
    RunsOn(x1, i, oks[1..]);
    y, left := Act(x1, Run(i, oks[1])), oks[1..][1..];
    Waits(x, x1, y, i);
  }

  // ---- Opening a node shell ----

  /** One step of a creator before its exec session. */
  lemma CreatorStep(x: World, i: nat, n: NodeShells.Work, ok: bool)
    requires List(x, i, [Node(n)]) && (n.FindNode? || n.Register? || n.CreatePod? || n.CheckOwner? || n.WaitPod?)
    ensures var y := Act(x, Run(i, ok));
      && Wait(x, y, i) && ExecsSame(x, y) && HandoffsSame(x, y)
      && match n
         case FindNode(s) => y.node == x.node && PodLog(y) == PodLog(x) && List(y, i, if ok then [Node(NodeShells.Register(s))] else [])
         case Register(s) =>
           s.id !in x.node.shells ==>
             && y.node == x.node.(shells := x.node.shells[s.id := s]) && PodLog(y) == PodLog(x) && List(y, i, [Node(NodeShells.CreatePod(s))])
         case CreatePod(s) =>
           && y.node == x.node && PodLog(y) == PodLog(x) + (if ok then multiset{NodeShells.PodCreated(s)} else multiset{})
           && List(y, i, if ok then [Node(NodeShells.CheckOwner(s))] else [Node(NodeShells.TakeOwn(s, Caller))])
         case CheckOwner(s) =>
           Has(x.node.shells, s) ==>
             && y.node == x.node.(named := x.node.named + {s}) && PodLog(y) == PodLog(x) && List(y, i, [Node(NodeShells.WaitPod(s))])
         case WaitPod(s) =>
           && y.node == x.node && PodLog(y) == PodLog(x)
           && List(y, i, if ok then [Exec(ExecSessions.Start(s))] else [Node(NodeShells.TakeOwn(s, Caller))])
         case _ => true
  {
    hide Act, PodLog, ExecsSame, HandoffsSame, Wait;
    assert [Node(n)] + [] == [Node(n)];
    NodeOne(x, i, n, [], ok);
  }

  datatype End = NotCreated | NotReady | NotOpened | Up

  /** The pod of `s` was created, and asked to be deleted as often as `deleted` says. */
  predicate PodsSince(x: World, y: World, s: Session, deleted: bool) {
    PodLog(y) == PodLog(x) + multiset{NodeShells.PodCreated(s)} + if deleted then multiset{NodeShells.PodDeleted(s)} else multiset{}
  }

  /** What a creator leaves of `s`: everything or nothing. */
  predicate Leaves(x: World, y: World, s: Session, end: End) {
    match end
    case NotCreated => ShellsSame(x, y) && ExecsSame(x, y)
    case NotReady => y.node.shells == x.node.shells && PodsSince(x, y, s, true) && ExecsSame(x, y)
    case NotOpened => y.node.shells == x.node.shells && PodsSince(x, y, s, true) && ExecReleased(x, y, s.id)
    case Up => y.node.shells == x.node.shells[s.id := s] && s in y.node.named && PodsSince(x, y, s, false) && Opened(x, y, s)
  }

  lemma PodIsMade(x: World, i: nat, s: Session, oks: seq<bool>) returns (y: World, left: seq<bool>, made: bool)
    requires List(x, i, [Node(NodeShells.Register(s))]) && s.id !in x.node.shells && s !in x.node.named && |oks| >= 3
    ensures Runs(x, i, oks) == Runs(y, i, left) && |left| >= |oks| - 3 && (AllTrue(oks) ==> made && AllTrue(left))
    ensures Wait(x, y, i) && ExecsSame(x, y) && HandoffsSame(x, y) && y.node.shells == x.node.shells[s.id := s]
    ensures made ==> PodsSince(x, y, s, false) && y.node.named == x.node.named + {s} && List(y, i, [Node(NodeShells.WaitPod(s))])
    ensures !made ==> PodLog(y) == PodLog(x) && y.node.named == x.node.named && List(y, i, [Node(NodeShells.TakeOwn(s, Caller))])
  {
    hide Act, ExecLog, PodLog, Runs, Wait, List;
    CreatorStep(x, i, NodeShells.Register(s), oks[0]);
    RunsOn(x, i, oks);
    var x1, left1 := Act(x, Run(i, oks[0])), oks[1..];
    made := left1[0];
    CreatorStep(x1, i, NodeShells.CreatePod(s), made);
    RunsOn(x1, i, left1);
    y, left := Act(x1, Run(i, made)), left1[1..];
    Waits(x, x1, y, i);
    if made {
      var x2 := y;
      CreatorStep(x2, i, NodeShells.CheckOwner(s), left[0]);
      RunsOn(x2, i, left);
      y, left := Act(x2, Run(i, left[0])), left[1..];
      Waits(x, x2, y, i);
    }
  }

  lemma ShellStarts(x: World, i: nat, s: Session, oks: seq<bool>) returns (y: World, left: seq<bool>, end: End, j: nat)
    requires List(x, i, [Node(NodeShells.Register(s))]) && s.node && s.id !in x.node.shells && s !in x.node.named && |oks| >= 10
    ensures Runs(x, i, oks) == Runs(y, i, left) && (AllTrue(oks) ==> end == Up)
    ensures Wait(x, y, i) && HandoffsSame(x, y) && IsDone(y, i) && Leaves(x, y, s, end)
    ensures end == Up ==> j >= |x.threads| && Streams(y, j, s)
  {
    hide Act, ExecLog, PodLog, Runs, Wait, List;
    j := 0;
    var x1, left1, made := PodIsMade(x, i, s, oks);
    if made {
      y, left, end, j := ShellGoesOn(x, x1, i, s, left1);
    } else {
      assert x.node.shells[s.id := s] - {s.id} == x.node.shells;
      y, left := GivesUp(x1, i, s, left1);
      end := NotCreated;
      Waits(x, x1, y, i);
    }
  }

  lemma ShellGoesOn(x: World, x1: World, i: nat, s: Session, oks: seq<bool>) returns (y: World, left: seq<bool>, end: End, j: nat)
    requires List(x1, i, [Node(NodeShells.WaitPod(s))]) && s.node && s.id !in x.node.shells && s !in x.node.named && |oks| >= 7
    requires Wait(x, x1, i) && ExecsSame(x, x1) && HandoffsSame(x, x1) && PodsSince(x, x1, s, false)
    requires x1.node.shells == x.node.shells[s.id := s] && x1.node.named == x.node.named + {s}
    ensures Runs(x1, i, oks) == Runs(y, i, left) && (AllTrue(oks) ==> end == Up)
    ensures Wait(x, y, i) && HandoffsSame(x, y) && IsDone(y, i) && Leaves(x, y, s, end)
    ensures end == Up ==> j >= |x.threads| && Streams(y, j, s)
  {
    hide Act, ExecLog, PodLog, Runs, Wait, List, ShellReleased, ReleaseNews;
    j := 0;
    var ready := oks[0];
    CreatorStep(x1, i, NodeShells.WaitPod(s), ready);
    RunsOn(x1, i, oks);
    var x2, left2 := Act(x1, Run(i, ready)), oks[1..];
    Waits(x, x1, x2, i);
    if !ready {
      y, left := GivesUp(x2, i, s, left2);
      end := NotReady;
      Waits(x, x2, y, i);
      PodIsGone(x, x2, y, s);
      return;
    }
    var x3, left3, up, k := ExecStarts(x2, i, s, left2);
    Waits(x, x2, x3, i);
    if up {
      y, left, end, j := x3, left3, Up, k;
    } else {
      y, left := GivesUp(x3, i, s, left3);
      end := NotOpened;
      Waits(x, x3, y, i);
      PodIsGone(x, x3, y, s);
    }
  }

  lemma PodIsGone(x: World, x1: World, y: World, s: Session)
    requires PodsSince(x, x1, s, false) && ShellReleased(x1, y, s.id)
    requires x1.node.shells == x.node.shells[s.id := s] && s in x1.node.named && s.id !in x.node.shells
    ensures PodsSince(x, y, s, true) && y.node.shells == x.node.shells
  {
    hide PodLog;
  }

  lemma NextIsNew(x: World, s: Session)
    requires Inv(x) && s.number == x.next
    ensures s !in x.node.named && !Has(x.node.shells, s)
  {
    hide HowMany;
    assert Keeps(x, s) && Unused(x, s);
  }

  /**
   * Opening a node shell, left alone: what was under the id is released first. Then,
   * whatever its API calls answer, the call leaves everything or nothing: the shell
   * registered and named, its pod created and its exec session opened in the place of
   * what was there; or neither registered, and a pod that was created asked to be
   * deleted once. If every call succeeds it is everything. `mid` is the world behind
   * the release, and `j` the thread of the stream.
   */
  lemma CreateNodeShellAlone(x: World, id: string, oks: seq<bool>) returns (mid: World, end: End, j: nat)
    requires Inv(x) && |oks| >= 13
    ensures var i, s := |x.threads|, Session(id, x.next, true);
      var y := Runs(Act(x, Open(CreateNodeShell(id))), i, oks);
      && IsDone(y, i) && Wait(x, y, i) && HandoffsSame(x, y)
      && ShellReleased(x, mid, id) && ExecsSame(x, mid) && Leaves(mid, y, s, end)
      && (AllTrue(oks) ==> end == Up) && (end == Up ==> j > i && Listens(y, j, s))
  {
    hide Act, ExecLog, PodLog, Runs, Inv;
    var i, s := |x.threads|, Session(id, x.next, true);
    var x0 := Act(x, Open(CreateNodeShell(id)));
    Opens(x, CreateNodeShell(id));
    NextIsNew(x, s);
    assert Begin(CreateNodeShell(id), x.next) == [Node(NodeShells.TakeAny(id))] + [Node(NodeShells.FindNode(s))];
    var x1, left := TakeShell(x0, i, id, [Node(NodeShells.FindNode(s))], oks);
    mid := x1;
    Waits(x, x0, x1, i);
    var found := left[0];
    CreatorStep(x1, i, NodeShells.FindNode(s), found);
    RunsOn(x1, i, left);
    var x2 := Act(x1, Run(i, found));
    Waits(x, x1, x2, i);
    j, end := 0, NotCreated;
    if found {
      var x3, more, e, k := ShellStarts(x2, i, s, left[1..]);
      end, j := e, k;
      Waits(x, x2, x3, i);
      DoneStays(x3, i, more);
      if end == Up {
        OpenedListens(x3, j, s);
      }
    } else {
      DoneStays(x2, i, left[1..]);
    }
  }

  /** Opening an exec session, left alone: up in the place of what was there, or not, and then what was there is at most released. */
  lemma CreateExecAlone(x: World, id: string, given: bool, oks: seq<bool>) returns (up: bool, j: nat)
    requires |oks| >= 5
    ensures var i, s := |x.threads|, Session(id, x.next, false);
      var y := Runs(Act(x, Open(CreateExec(id, given))), i, oks);
      && IsDone(y, i) && Wait(x, y, i) && ShellsSame(x, y) && HandoffsSame(x, y)
      && (if up then Opened(x, y, s) && j > i && Listens(y, j, s) else ExecReleased(x, y, id) || (!given && ExecsSame(x, y)))
      && (AllTrue(oks) ==> up)
  {
    hide Act, ExecLog, PodLog, Runs;
    var i, s := |x.threads|, Session(id, x.next, false);
    var x0 := Act(x, Open(CreateExec(id, given)));
    Opens(x, CreateExec(id, given));
    var x1, left := x0, oks;
    up, j := false, 0;
    if !given {
      FindStep(x0, i, s, oks[0]);
      RunsOn(x0, i, oks);
      x1, left := Act(x0, Run(i, oks[0])), oks[1..];
      Waits(x, x0, x1, i);
      if !oks[0] {
        DoneStays(x1, i, left);
        return;
      }
    }
    var x2, more, u, k := ExecStarts(x1, i, s, left);
    up, j := u, k;
    Waits(x, x1, x2, i);
    DoneStays(x2, i, more);
    if up {
      OpenedListens(x2, j, s);
    }
  }

  lemma FindStep(x: World, i: nat, s: Session, ok: bool)
    requires List(x, i, [Exec(ExecSessions.FindContainer(s))])
    ensures var y := Act(x, Run(i, ok));
      && Wait(x, y, i) && ShellsSame(x, y) && HandoffsSame(x, y) && ExecsSame(x, y)
      && List(y, i, if ok then [Exec(ExecSessions.Start(s))] else [])
  {
    hide Act, ExecLog, ShellsSame, HandoffsSame, Wait;
    assert [Exec(ExecSessions.FindContainer(s))] + [] == [Exec(ExecSessions.FindContainer(s))];
    ExecOne(x, i, ExecSessions.FindContainer(s), [], ok);
  }

  // ---- The end of a stream ----

  /** The session's own end: taken and torn down once, its shell released first if it is a node shell's, and then one notice. */
  predicate StreamClosed(x: World, y: World, s: Session) {
    && y.execs == x.execs - {s.id}
    && ExecLog(y) == ExecLog(x) + multiset{ExecSessions.Taken(s)} + multiset{ExecSessions.StreamWon(s)}
                     + multiset{ExecSessions.TornDown(s)} + multiset{ExecSessions.Closed(s)}
    && if s.node && Has(x.node.shells, s) then ShellReleased(x, y, s.id) else ShellsSame(x, y)
  }

  lemma StreamStep(x: World, i: nat, s: Session, ok: bool)
    requires Streams(x, i, s)
    ensures var y := Act(x, Run(i, ok));
      && Wait(x, y, i) && ShellsSame(x, y) && HandoffsSame(x, y)
      && (!Has(x.execs, s) ==> ExecsSame(x, y) && IsDone(y, i))
      && (Has(x.execs, s) ==>
            && y.execs == x.execs - {s.id} && ExecLog(y) == ExecLog(x) + multiset{ExecSessions.Taken(s)} + multiset{ExecSessions.StreamWon(s)}
            && List(y, i, [Exec(ExecSessions.TearDown(s))] +
                          [if s.node then Node(NodeShells.TakeOwn(s, Stream)) else Exec(ExecSessions.Notify(s))]))
  {
    hide Act, ExecLog, ShellsSame, HandoffsSame, Wait, ExecSessions.Do, FromExec, ExecNews;
    assert [Exec(ExecSessions.StreamEnd(s))] + [] == [Exec(ExecSessions.StreamEnd(s))];
    ExecOne(x, i, ExecSessions.StreamEnd(s), [], ok);
    StreamDoes(x.execs, s, ok);
  }

  lemma StreamDoes(t: Registry, s: Session, ok: bool)
    ensures var e := ExecSessions.Do(t, ExecSessions.StreamEnd(s), ok);
      if Has(t, s) then
        && e.t == t - {s.id} && FromExec(e.next) == Exec(ExecSessions.TearDown(s))
        && FromExec(e.last) == (if s.node then Node(NodeShells.TakeOwn(s, Stream)) else Exec(ExecSessions.Notify(s)))
        && ExecNews(e.event) == multiset{ExecSessions.Taken(s)} && ExecNews(e.other) == multiset{ExecSessions.StreamWon(s)}
      else e.t == t && FromExec(e.next) == FromExec(e.last) == Idle && ExecNews(e.event) == ExecNews(e.other) == multiset{}
  {
  }

  lemma NotifyStep(x: World, i: nat, s: Session, ok: bool)
    requires List(x, i, [Exec(ExecSessions.Notify(s))])
    ensures var y := Act(x, Run(i, ok));
      && Wait(x, y, i) && ShellsSame(x, y) && HandoffsSame(x, y) && IsDone(y, i)
      && y.execs == x.execs && ExecLog(y) == ExecLog(x) + multiset{ExecSessions.Closed(s)}
  {
    hide Act, ExecLog, ShellsSame, HandoffsSame, Wait;
    assert [Exec(ExecSessions.Notify(s))] + [] == [Exec(ExecSessions.Notify(s))];
    ExecOne(x, i, ExecSessions.Notify(s), [], ok);
  }

  lemma LeaveStep(x: World, i: nat, s: Session, ok: bool)
    requires List(x, i, [Node(NodeShells.TakeOwn(s, Stream))])
    ensures var y := Act(x, Run(i, ok));
      && Wait(x, y, i) && ExecsSame(x, y) && HandoffsSame(x, y) && PodLog(y) == PodLog(x) && y.node.named == x.node.named
      && (Has(x.node.shells, s) ==>
            List(y, i, [Node(NodeShells.DropPod(s))] + [Exec(ExecSessions.Notify(s))]) && y.node.shells == x.node.shells - {s.id})
      && (!Has(x.node.shells, s) ==> List(y, i, [Exec(ExecSessions.Notify(s))]) && y.node == x.node)
  {
    hide Act, PodLog, ExecsSame, HandoffsSame, Wait;
    assert [Node(NodeShells.TakeOwn(s, Stream))] + [] == [Node(NodeShells.TakeOwn(s, Stream))];
    NodeOne(x, i, NodeShells.TakeOwn(s, Stream), [], ok);
  }

  lemma DropThen(x: World, i: nat, s: Session, rest: seq<Work>, ok: bool)
    requires List(x, i, [Node(NodeShells.DropPod(s))] + rest)
    ensures var y := Act(x, Run(i, ok));
      && Wait(x, y, i) && ExecsSame(x, y) && HandoffsSame(x, y) && y.node == x.node && List(y, i, rest)
      && PodLog(y) == PodLog(x) + if s in x.node.named then multiset{NodeShells.PodDeleted(s)} else multiset{}
  {
    hide Act, PodLog, ExecsSame, HandoffsSame, Wait;
    NodeOne(x, i, NodeShells.DropPod(s), rest, ok);
  }

  lemma LeavesShell(x: World, i: nat, s: Session, oks: seq<bool>) returns (y: World, left: seq<bool>)
    requires List(x, i, [Node(NodeShells.TakeOwn(s, Stream))]) && |oks| >= 2
    ensures Runs(x, i, oks) == Runs(y, i, left) && |left| >= |oks| - 2 && List(y, i, [Exec(ExecSessions.Notify(s))])
    ensures Wait(x, y, i) && ExecsSame(x, y) && HandoffsSame(x, y)
    ensures if Has(x.node.shells, s) then ShellReleased(x, y, s.id) else ShellsSame(x, y)
  {
    hide Act, ExecLog, PodLog, Runs, List, Wait;
    LeaveStep(x, i, s, oks[0]);
    RunsOn(x, i, oks);
    y, left := Act(x, Run(i, oks[0])), oks[1..];
    if Has(x.node.shells, s) {
      var x1 := y;
      DropThen(x1, i, s, [Exec(ExecSessions.Notify(s))], left[0]);
      RunsOn(x1, i, left);
      y, left := Act(x1, Run(i, left[0])), left[1..];
      Waits(x, x1, y, i);
    }
  }

  /** A stream that ends, left alone: its session is closed as above if it is still registered, and nothing happens otherwise. */
  lemma StreamEndAlone(x: World, j: nat, s: Session, oks: seq<bool>)
    requires Streams(x, j, s) && |oks| >= 5
    ensures var y := Runs(x, j, oks);
      && IsDone(y, j) && Wait(x, y, j) && HandoffsSame(x, y)
      && if Has(x.execs, s) then StreamClosed(x, y, s) else ExecsSame(x, y) && ShellsSame(x, y)
  {
    hide Act, ExecLog, PodLog, Runs, Wait;
    StreamStep(x, j, s, oks[0]);
    RunsOn(x, j, oks);
    var x1, left := Act(x, Run(j, oks[0])), oks[1..];
    if !Has(x.execs, s) {
      DoneStays(x1, j, left);
      return;
    }
    var rest := [if s.node then Node(NodeShells.TakeOwn(s, Stream)) else Exec(ExecSessions.Notify(s))];
    TearStep(x1, j, s, rest, left[0]);
    RunsOn(x1, j, left);
    var x2 := Act(x1, Run(j, left[0]));
    Waits(x, x1, x2, j);
    left := left[1..];
    var x3 := x2;
    if s.node {
      x3, left := LeavesShell(x2, j, s, left);
      Waits(x, x2, x3, j);
    }
    NotifyStep(x3, j, s, left[0]);
    RunsOn(x3, j, left);
    var y := Act(x3, Run(j, left[0]));
    Waits(x, x3, y, j);
    DoneStays(y, j, left[1..]);
  }

  /** The thread waits for the stream of `s`: when that ends with nobody else moving, it closes the session. */
  ghost predicate Listens(y: World, j: nat, s: Session) {
    forall oks: seq<bool> :: |oks| >= 5 ==> IsDone(Runs(y, j, oks), j) && StreamClosed(y, Runs(y, j, oks), s)
  }

  lemma OpenedListens(y: World, j: nat, s: Session)
    requires Has(y.execs, s) && Streams(y, j, s)
    ensures Listens(y, j, s)
  {
    hide StreamClosed, Streams, ExecLog, Runs;
    forall oks: seq<bool> | |oks| >= 5 ensures IsDone(Runs(y, j, oks), j) && StreamClosed(y, Runs(y, j, oks), s) {
      StreamEndAlone(y, j, s, oks);
    }
  }

  // ---- Handing over ----

  /** The session a window means by `id`: an exec session, or else a node shell. */
  predicate Means(x: World, id: string, s: Session) {
    if id in x.execs then x.execs[id] == s else id in x.node.shells && x.node.shells[id] == s
  }

  lemma FindExecStep(x: World, i: nat, id: string, detach: bool, ok: bool)
    requires List(x, i, [Hand(Handoff.FindExec(id, detach))])
    ensures var y := Act(x, Run(i, ok));
      && Wait(x, y, i) && ShellsSame(x, y) && ExecsSame(x, y) && HandoffsSame(x, y)
      && List(y, i, [Hand(if id in x.execs then Handoff.Found(id, x.execs[id], detach) else Handoff.FindShell(id, detach))])
  {
    hide Act, PodLog, ExecLog, TimerLog, Wait, ShellsSame, ExecsSame;
    assert [Hand(Handoff.FindExec(id, detach))] + [] == [Hand(Handoff.FindExec(id, detach))];
    HandOne(x, i, Handoff.FindExec(id, detach), [], ok);
  }

  lemma FindShellStep(x: World, i: nat, id: string, detach: bool, ok: bool)
    requires List(x, i, [Hand(Handoff.FindShell(id, detach))])
    ensures var y := Act(x, Run(i, ok));
      && Wait(x, y, i) && ShellsSame(x, y) && ExecsSame(x, y) && HandoffsSame(x, y)
      && List(y, i, if id in x.node.shells then [Hand(Handoff.Found(id, x.node.shells[id], detach))] else [])
  {
    hide Act, PodLog, ExecLog, TimerLog, Wait, ShellsSame, ExecsSame;
    assert [Hand(Handoff.FindShell(id, detach))] + [] == [Hand(Handoff.FindShell(id, detach))];
    HandOne(x, i, Handoff.FindShell(id, detach), [], ok);
  }

  lemma FindsSession(x: World, i: nat, id: string, detach: bool, oks: seq<bool>) returns (y: World, left: seq<bool>)
    requires List(x, i, [Hand(Handoff.FindExec(id, detach))]) && |oks| >= 2
    ensures Runs(x, i, oks) == Runs(y, i, left) && |left| >= |oks| - 2
    ensures Wait(x, y, i) && ShellsSame(x, y) && ExecsSame(x, y) && HandoffsSame(x, y)
    ensures List(y, i, if id in x.execs then [Hand(Handoff.Found(id, x.execs[id], detach))]
                       else if id in x.node.shells then [Hand(Handoff.Found(id, x.node.shells[id], detach))] else [])
  {
    hide Act, Runs, PodLog, ExecLog, TimerLog, Wait, List;
    FindExecStep(x, i, id, detach, oks[0]);
    RunsOn(x, i, oks);
    y, left := Act(x, Run(i, oks[0])), oks[1..];
    if id !in x.execs {
      var x1 := y;
      FindShellStep(x1, i, id, detach, left[0]);
      RunsOn(x1, i, left);
      y, left := Act(x1, Run(i, left[0])), left[1..];
      Waits(x, x1, y, i);
    }
  }

  /** A handed-over session waits under a ticket for its grace period to end. */
  predicate Detached(x: World, y: World, id: string, k: Ticket) {
    && y.detached == x.detached[id := k]
    && TimerLog(y) == TimerLog(x) + multiset{Handoff.Armed(k)} + if id in x.detached then multiset{Handoff.Replaced(x.detached[id])} else multiset{}
  }

  lemma ArmStep(x: World, i: nat, id: string, history: nat, ok: bool)
    requires List(x, i, [Hand(Handoff.Arm(id, history))])
    ensures var y, k := Act(x, Run(i, ok)), Ticket(id, history, x.next);
      && Wait(x, y, i) && ShellsSame(x, y) && ExecsSame(x, y) && IsDone(y, i)
      && Detached(x, y, id, k) && List(y, |x.threads|, [Hand(Handoff.Fire(k))])
  {
    hide Act, PodLog, ExecLog, TimerLog, Wait;
    assert [Hand(Handoff.Arm(id, history))] + [] == [Hand(Handoff.Arm(id, history))];
    HandOne(x, i, Handoff.Arm(id, history), [], ok);
  }

  lemma DisarmStep(x: World, i: nat, id: string, history: nat, ok: bool)
    requires List(x, i, [Hand(Handoff.Disarm(id, history))])
    ensures var y := Act(x, Run(i, ok));
      && Wait(x, y, i) && ShellsSame(x, y) && ExecsSame(x, y) && IsDone(y, i)
      && if id in x.detached && x.detached[id].history == history
         then y.detached == x.detached - {id} && TimerLog(y) == TimerLog(x) + multiset{Handoff.Attached(x.detached[id])}
         else HandoffsSame(x, y)
  {
    hide Act, PodLog, ExecLog, TimerLog, Wait;
    assert [Hand(Handoff.Disarm(id, history))] + [] == [Hand(Handoff.Disarm(id, history))];
    HandOne(x, i, Handoff.Disarm(id, history), [], ok);
  }

  /** Attaching, left alone: the pending detach of the session meant goes, and nothing else. */
  lemma AttachAlone(x: World, id: string, oks: seq<bool>)
    requires |oks| >= 3
    ensures var i := |x.threads|;
      var y := Runs(Act(x, Open(Attach(id))), i, oks);
      && IsDone(y, i) && Wait(x, y, i) && ShellsSame(x, y) && ExecsSame(x, y)
      && if id in x.detached && exists s :: Means(x, id, s) && s.number == x.detached[id].history
         then y.detached == x.detached - {id} && TimerLog(y) == TimerLog(x) + multiset{Handoff.Attached(x.detached[id])}
         else HandoffsSame(x, y)
  {
    hide Act, Runs, PodLog, ExecLog, TimerLog, Wait;
    var i := |x.threads|;
    var x0 := Act(x, Open(Attach(id)));
    Opens(x, Attach(id));
    var x1, left := FindsSession(x0, i, id, false, oks);
    Waits(x, x0, x1, i);
    if id in x.execs || id in x.node.shells {
      var t := if id in x.execs then x.execs[id] else x.node.shells[id];
      assert Means(x, id, t) && forall s :: Means(x, id, s) ==> s == t;
      DisarmStep(x1, i, id, t.number, left[0]);
      RunsOn(x1, i, left);
      var x2 := Act(x1, Run(i, left[0]));
      Waits(x, x1, x2, i);
      DoneStays(x2, i, left[1..]);
    } else {
      DoneStays(x1, i, left);
    }
  }

  // ---- The grace period ----

  /** What is under the ticket's id is the session it was made for: it is released for the timer. */
  predicate ShellTimedOut(x: World, y: World, k: Ticket) {
    if Matches(x.node.shells, k) then
      var s := x.node.shells[k.id];
      && y.node.shells == x.node.shells - {k.id} && y.node.named == x.node.named
      && PodLog(y) == PodLog(x) + multiset{NodeShells.TimerTook(k, s)} + if s in x.node.named then multiset{NodeShells.PodDeleted(s)} else multiset{}
    else ShellsSame(x, y)
  }

  predicate ExecTimedOut(x: World, y: World, k: Ticket) {
    if Matches(x.execs, k) then
      var s := x.execs[k.id];
      && y.execs == x.execs - {k.id}
      && ExecLog(y) == ExecLog(x) + multiset{ExecSessions.Taken(s)} + multiset{ExecSessions.TimerTook(k, s)} + multiset{ExecSessions.TornDown(s)}
    else ExecsSame(x, y)
  }

  lemma FireStep(x: World, i: nat, k: Ticket, ok: bool)
    requires List(x, i, [Hand(Handoff.Fire(k))])
    ensures var y := Act(x, Run(i, ok));
      && Wait(x, y, i) && ShellsSame(x, y) && ExecsSame(x, y)
      && if Handoff.Holds(x.detached, k) then
           && y.detached == x.detached - {k.id} && TimerLog(y) == TimerLog(x) + multiset{Handoff.Fired(k)}
           && List(y, i, [Hand(Handoff.ShellOf(k))] + [Hand(Handoff.ExecOf(k))])
         else HandoffsSame(x, y) && IsDone(y, i)
  {
    hide Act, PodLog, ExecLog, TimerLog, Wait, Handoff.Do, Handoff.Holds;
    assert [Hand(Handoff.Fire(k))] + [] == [Hand(Handoff.Fire(k))];
    HandOne(x, i, Handoff.Fire(k), [], ok);
    FireIs(x, k);
  }

  lemma FireIs(x: World, k: Ticket)
    ensures Handoff.Do(x.detached, x.node.shells, x.execs, Handoff.Fire(k), x.next)
            == if Handoff.Holds(x.detached, k)
               then Handoff.Effect(x.detached - {k.id}, Handoff.ShellOf(k), Handoff.ExecOf(k), Handoff.Idle, Handoff.Fired(k), Handoff.Silent)
               else Handoff.Only(x.detached, Handoff.Idle)
  {
  }

  lemma ShellOfStep(x: World, i: nat, k: Ticket, rest: seq<Work>, ok: bool)
    requires List(x, i, [Hand(Handoff.ShellOf(k))] + rest)
    ensures var y := Act(x, Run(i, ok));
      && Wait(x, y, i) && ShellsSame(x, y) && ExecsSame(x, y) && HandoffsSame(x, y)
      && List(y, i, if Matches(x.node.shells, k) then [Node(NodeShells.TakeOwn(x.node.shells[k.id], Timer(k)))] + rest else rest)
  {
    hide Act, PodLog, ExecLog, TimerLog, Wait, ShellsSame, ExecsSame;
    HandOne(x, i, Handoff.ShellOf(k), rest, ok);
  }

  lemma TimerTakesShell(x: World, i: nat, k: Ticket, s: Session, rest: seq<Work>, ok: bool)
    requires List(x, i, [Node(NodeShells.TakeOwn(s, Timer(k)))] + rest) && Has(x.node.shells, s)
    ensures var y := Act(x, Run(i, ok));
      && Wait(x, y, i) && ExecsSame(x, y) && HandoffsSame(x, y) && List(y, i, [Node(NodeShells.DropPod(s))] + rest)
      && y.node == x.node.(shells := x.node.shells - {s.id}) && PodLog(y) == PodLog(x) + multiset{NodeShells.TimerTook(k, s)}
  {
    hide Act, PodLog, ExecLog, TimerLog, Wait, ExecsSame, HandoffsSame;
    NodeOne(x, i, NodeShells.TakeOwn(s, Timer(k)), rest, ok);
  }

  lemma TimesShellOut(x: World, i: nat, k: Ticket, rest: seq<Work>, oks: seq<bool>) returns (y: World, left: seq<bool>)
    requires List(x, i, [Hand(Handoff.ShellOf(k))] + rest) && |oks| >= 3 && KeyedById(x.node.shells)
    ensures Runs(x, i, oks) == Runs(y, i, left) && |left| >= |oks| - 3 && List(y, i, rest)
    ensures Wait(x, y, i) && ShellTimedOut(x, y, k) && ExecsSame(x, y) && HandoffsSame(x, y)
  {
    hide Act, Runs, PodLog, ExecLog, TimerLog, Wait, List;
    ShellOfStep(x, i, k, rest, oks[0]);
    RunsOn(x, i, oks);
    y, left := Act(x, Run(i, oks[0])), oks[1..];
    if Matches(x.node.shells, k) {
      var s, x1 := x.node.shells[k.id], y;
      TimerTakesShell(x1, i, k, s, rest, left[0]);
      RunsOn(x1, i, left);
      var x2 := Act(x1, Run(i, left[0]));
      DropThen(x2, i, s, rest, left[1..][0]);
      RunsOn(x2, i, left[1..]);
      y, left := Act(x2, Run(i, left[1..][0])), left[1..][1..];
      Waits(x, x1, x2, i);
      Waits(x, x2, y, i);
    }
  }

  lemma ExecOfStep(x: World, i: nat, k: Ticket, ok: bool)
    requires List(x, i, [Hand(Handoff.ExecOf(k))])
    ensures var y := Act(x, Run(i, ok));
      && Wait(x, y, i) && ShellsSame(x, y) && ExecsSame(x, y) && HandoffsSame(x, y)
      && List(y, i, if Matches(x.execs, k) then [Exec(ExecSessions.TakeOwn(x.execs[k.id], Timer(k)))] else [])
  {
    hide Act, PodLog, ExecLog, TimerLog, Wait, ShellsSame, ExecsSame;
    assert [Hand(Handoff.ExecOf(k))] + [] == [Hand(Handoff.ExecOf(k))];
    HandOne(x, i, Handoff.ExecOf(k), [], ok);
  }

  lemma TimerTakesExec(x: World, i: nat, k: Ticket, s: Session, ok: bool)
    requires List(x, i, [Exec(ExecSessions.TakeOwn(s, Timer(k)))]) && Has(x.execs, s)
    ensures var y := Act(x, Run(i, ok));
      && Wait(x, y, i) && ShellsSame(x, y) && HandoffsSame(x, y) && List(y, i, [Exec(ExecSessions.TearDown(s))])
      && y.execs == x.execs - {s.id}
      && ExecLog(y) == ExecLog(x) + multiset{ExecSessions.Taken(s)} + multiset{ExecSessions.TimerTook(k, s)}
  {
    hide Act, PodLog, ExecLog, TimerLog, Wait, ShellsSame, HandoffsSame;
    assert [Exec(ExecSessions.TakeOwn(s, Timer(k)))] + [] == [Exec(ExecSessions.TakeOwn(s, Timer(k)))];
    ExecOne(x, i, ExecSessions.TakeOwn(s, Timer(k)), [], ok);
  }

  lemma TimesExecOut(x: World, i: nat, k: Ticket, oks: seq<bool>) returns (y: World, left: seq<bool>)
    requires List(x, i, [Hand(Handoff.ExecOf(k))]) && |oks| >= 3 && KeyedById(x.execs)
    ensures Runs(x, i, oks) == Runs(y, i, left) && IsDone(y, i)
    ensures Wait(x, y, i) && ExecTimedOut(x, y, k) && ShellsSame(x, y) && HandoffsSame(x, y)
  {
    hide Act, Runs, PodLog, ExecLog, TimerLog, Wait;
    ExecOfStep(x, i, k, oks[0]);
    RunsOn(x, i, oks);
    y, left := Act(x, Run(i, oks[0])), oks[1..];
    if Matches(x.execs, k) {
      var s, x1 := x.execs[k.id], y;
      TimerTakesExec(x1, i, k, s, left[0]);
      RunsOn(x1, i, left);
      var x2 := Act(x1, Run(i, left[0]));
      assert [Exec(ExecSessions.TearDown(s))] + [] == [Exec(ExecSessions.TearDown(s))];
      TearStep(x2, i, s, [], left[1..][0]);
      RunsOn(x2, i, left[1..]);
      y, left := Act(x2, Run(i, left[1..][0])), left[1..][1..];
      Waits(x, x1, x2, i);
      Waits(x, x2, y, i);
    }
  }

  /** What a grace period that ends leaves, as long as nobody attached the session or detached it anew. */
  predicate TimedOut(x: World, y: World, k: Ticket) {
    && y.detached == x.detached - {k.id} && TimerLog(y) == TimerLog(x) + multiset{Handoff.Fired(k)}
    && ShellTimedOut(x, y, k) && ExecTimedOut(x, y, k)
  }

  lemma TimerAlone(x: World, j: nat, k: Ticket, oks: seq<bool>)
    requires List(x, j, [Hand(Handoff.Fire(k))]) && Keyed(x) && |oks| >= 7
    ensures var y := Runs(x, j, oks);
      && IsDone(y, j) && Wait(x, y, j)
      && if Handoff.Holds(x.detached, k) then TimedOut(x, y, k) else ShellsSame(x, y) && ExecsSame(x, y) && HandoffsSame(x, y)
  {
    hide Act, Runs, PodLog, ExecLog, TimerLog, Wait, Matches;
    FireStep(x, j, k, oks[0]);
    RunsOn(x, j, oks);
    var x1, left := Act(x, Run(j, oks[0])), oks[1..];
    if Handoff.Holds(x.detached, k) {
      var x2, left2 := TimesShellOut(x1, j, k, [Hand(Handoff.ExecOf(k))], left);
      var y, left3 := TimesExecOut(x2, j, k, left2);
      Waits(x, x1, x2, j);
      Waits(x, x2, y, j);
      DoneStays(y, j, left3);
    } else {
      DoneStays(x1, j, left);
    }
  }

  /** The thread waits for the grace period of `k`: when it ends with nobody else moving, the session is closed. */
  ghost predicate GraceRuns(y: World, j: nat, k: Ticket) {
    forall oks: seq<bool> :: |oks| >= 7 ==> IsDone(Runs(y, j, oks), j) && TimedOut(y, Runs(y, j, oks), k)
  }

  /** Detaching, left alone: the session meant, if there is one, waits under a new ticket, and its grace period runs. */
  lemma DetachAlone(x: World, id: string, oks: seq<bool>) returns (k: Ticket, j: nat)
    requires |oks| >= 3 && Keyed(x)
    ensures var i := |x.threads|;
      var y := Runs(Act(x, Open(Detach(id))), i, oks);
      && IsDone(y, i) && Wait(x, y, i) && ShellsSame(x, y) && ExecsSame(x, y)
      && if s :| Means(x, id, s) then k.id == id && k.history == s.number && Detached(x, y, id, k) && j > i && GraceRuns(y, j, k)
         else HandoffsSame(x, y)
  {
    hide Act, Runs, PodLog, ExecLog, TimerLog, Wait, TimedOut;
    var i := |x.threads|;
    var x0 := Act(x, Open(Detach(id)));
    Opens(x, Detach(id));
    var x1, left := FindsSession(x0, i, id, true, oks);
    Waits(x, x0, x1, i);
    k, j := Ticket(id, 0, 0), 0;
    if id in x.execs || id in x.node.shells {
      var t := if id in x.execs then x.execs[id] else x.node.shells[id];
      assert Means(x, id, t) && forall s :: Means(x, id, s) ==> s == t;
      ArmStep(x1, i, id, t.number, left[0]);
      RunsOn(x1, i, left);
      var x2 := Act(x1, Run(i, left[0]));
      k, j := Ticket(id, t.number, x1.next), |x1.threads|;
      Waits(x, x1, x2, i);
      DoneStays(x2, i, left[1..]);
      forall oks: seq<bool> | |oks| >= 7 ensures IsDone(Runs(x2, j, oks), j) && TimedOut(x2, Runs(x2, j, oks), k) {
        TimerAlone(x2, j, k, oks);
      }
    } else {
      DoneStays(x1, i, left);
    }
  }
}
