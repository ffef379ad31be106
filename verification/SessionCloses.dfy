// internal/services/nodeShellServices.go:86-209 and podExecServices.go:54-160: what a
// close and a failed creation achieve whatever the other threads do meanwhile.

module SessionCloses {
  import opened Ownership
  import opened Sessions
  import opened SessionRuns
  import opened SessionGaps
  import opened SessionGrace
  import NodeShells
  import ExecSessions
  import Handoff

  // ---- Once registered and gone, gone for good ----

  lemma HeldIsPast(x: World, s: Session)
    requires Inv(x) && Has(x.node.shells, s)
    ensures Past(x, s)
  {
    hide HowMany;
    assert Keeps(x, s);
  }

  lemma HeldIsOpened(x: World, s: Session)
    requires Inv(x) && Has(x.execs, s)
    ensures ExecSessions.Opened(s) in x.ends
  {
    hide HowMany;
    assert Keeps(x, s);
  }

  /** An exec session that was opened and is not registered never is again. */
  lemma ExecGone(x: World, a: Action, s: Session)
    requires Inv(x) && ExecSessions.Opened(s) in x.ends
    ensures var y := Act(x, a);
      ExecSessions.Opened(s) in y.ends && (!Has(x.execs, s) ==> !Has(y.execs, s))
  {
    hide Step, Begin, Inv, Keeps;
    if a.Run? && a.thread < |x.threads| && x.threads[a.thread] != [] {
      assert Keeps(x, s) by { KeepsOf(x, s); }
      StepExecGone(x, a.thread, a.ok, s);
    }
  }

  lemma KeepsOf(x: World, s: Session)
    requires Inv(x)
    ensures Keeps(x, s)
  {
  }

  lemma StepExecGone(x: World, i: nat, ok: bool, s: Session)
    requires i < |x.threads| && x.threads[i] != [] && Keeps(x, s) && ExecSessions.Opened(s) in x.ends
    ensures var y := Step(x, i, ok);
      ExecSessions.Opened(s) in y.ends && (!Has(x.execs, s) ==> !Has(y.execs, s))
  {
    hide HowMany, NodeShells.Do, ExecSessions.Do, Handoff.Do, FromNode, FromExec, FromHand, Advance, NodeStep, ExecStep, HandStep, ExecSessions.RoleOf;
    match x.threads[i][0]
    case Node(n) => NodeStepTables(x, i, n, ok, s);
    case Exec(e) =>
      ExecStepTables(x, i, e, ok);
      ExecStepRoles(x, i, e, ok, Starting, s);
      ExecStarts(x.execs, e, ok, s);
    case Hand(h) => HandStepTables(x, i, h);
    case Idle => IdleKeeps(x, i);
  }

  lemma IdleKeeps(x: World, i: nat)
    requires At(x, i, Idle)
    ensures var y := Advance(x, i, Idle, Idle, Idle); y.execs == x.execs && y.ends == x.ends && y.node == x.node
  {
  }

  // ---- The thread of a close ----

  /** While thread `i` has not released `id`, it is going to. */
  predicate ReleasesShell(x: World, i: nat, id: string, s: Session) {
    i < |x.threads| && (Node(NodeShells.TakeAny(id)) in x.threads[i] || !Has(x.node.shells, s))
  }

  predicate ReleasesExec(x: World, i: nat, id: string, s: Session) {
    i < |x.threads| && (Exec(ExecSessions.TakeAny(id)) in x.threads[i] || !Has(x.execs, s))
  }

  lemma StepThreads(x: World, i: nat, ok: bool) returns (a: Work, b: Work, c: Work)
    requires i < |x.threads| && x.threads[i] != []
    ensures Step(x, i, ok).threads == x.threads[i := Cons(a, Cons(b, x.threads[i][1..]))] + [Cons(c, [])]
  {
    hide NodeShells.Do, ExecSessions.Do, Handoff.Do, FromNode, FromExec, FromHand, Cons;
    a, b, c := Idle, Idle, Idle;
    match x.threads[i][0]
    case Node(n) =>
      var e := NodeShells.Do(x.node, n, ok);
      a, b := FromNode(e.next), FromNode(e.last);
    case Exec(n) =>
      var e := ExecSessions.Do(x.execs, n, ok);
      a, b, c := FromExec(e.next), FromExec(e.last), FromExec(e.spawn);
    case Hand(h) =>
      var e := Handoff.Do(x.detached, x.node.shells, x.execs, h, x.next);
      a, b, c := FromHand(e.next), FromHand(e.last), FromHand(e.spawn);
    case Idle =>
  }

  /** A step of another thread leaves the list, and one of its own drops at most the first item. */
  lemma ListStays(x: World, a: Action, i: nat, w: Work)
    requires i < |x.threads| && w != Idle && w in x.threads[i]
    ensures var y := Act(x, a); i < |y.threads|
    ensures (a.Run? && a.thread == i && x.threads[i][0] == w) || w in Act(x, a).threads[i]
  {
    hide Step, Cons, Begin;
    if a.Run? && a.thread < |x.threads| && x.threads[a.thread] != [] {
      var n, l, s := StepThreads(x, a.thread, a.ok);
      InRest(x.threads[i], w);
    }
  }

  lemma InRest(list: seq<Work>, w: Work)
    requires w in list && w != Idle
    ensures list[0] == w || forall a, b :: w in Cons(a, Cons(b, list[1..]))
  {
    if list[0] != w {
      assert w in list[1..];
    }
  }

  lemma ThreadsStay(x: World, a: Action)
    ensures |x.threads| <= |Act(x, a).threads|
  {
    hide Step, Cons, Begin;
    if a.Run? && a.thread < |x.threads| && x.threads[a.thread] != [] {
      var n, l, s := StepThreads(x, a.thread, a.ok);
    }
  }

  lemma ShellHeldStep(x: World, a: Action, i: nat, id: string, s: Session)
    requires Inv(x) && Past(x, s) && s.id == id && ReleasesShell(x, i, id, s)
    ensures Past(Act(x, a), s) && ReleasesShell(Act(x, a), i, id, s)
  {
    hide Act, Inv, Past;
    ActStays(x, a, s);
    ThreadsStay(x, a);
    var w := Node(NodeShells.TakeAny(id));
    if w in x.threads[i] {
      ListStays(x, a, i, w);
      if a.Run? && a.thread == i && x.threads[i][0] == w {
        TakesShell(x, i, a.ok, id);
      }
    }
  }

  lemma TakesShell(x: World, i: nat, ok: bool, id: string)
    requires At(x, i, Node(NodeShells.TakeAny(id)))
    ensures id !in Act(x, Run(i, ok)).node.shells
  {
    NodeStepTables(x, i, NodeShells.TakeAny(id), ok, Session(id, 0, true));
  }

  lemma ExecHeldStep(x: World, a: Action, i: nat, id: string, s: Session)
    requires Inv(x) && ExecSessions.Opened(s) in x.ends && s.id == id && ReleasesExec(x, i, id, s)
    ensures ExecSessions.Opened(s) in Act(x, a).ends && ReleasesExec(Act(x, a), i, id, s)
  {
    hide Act, Inv;
    ExecGone(x, a, s);
    ThreadsStay(x, a);
    var w := Exec(ExecSessions.TakeAny(id));
    if w in x.threads[i] {
      ListStays(x, a, i, w);
      if a.Run? && a.thread == i && x.threads[i][0] == w {
        TakesExec(x, i, a.ok, id);
      }
    }
  }

  lemma TakesExec(x: World, i: nat, ok: bool, id: string)
    requires At(x, i, Exec(ExecSessions.TakeAny(id)))
    ensures id !in Act(x, Run(i, ok)).execs
  {
    ExecStepTables(x, i, ExecSessions.TakeAny(id), ok);
  }

  lemma {:induction false} ShellRun(actions: seq<Action>, more: seq<Action>, i: nat, id: string, s: Session)
    requires Past(Play(actions), s) && s.id == id && ReleasesShell(Play(actions), i, id, s)
    ensures Past(Play(actions + more), s) && ReleasesShell(Play(actions + more), i, id, s)
    decreases |more|
  {
    hide Play, Act, Inv, Past, ReleasesShell;
    PlayLast(actions + more);
    if more == [] {
      assert actions + more == actions;
    } else {
      var n := |more| - 1;
      ShellRun(actions, more[..n], i, id, s);
      assert (actions + more)[..|actions| + n] == actions + more[..n];
      EveryRun(actions + more[..n]);
      ShellHeldStep(Play(actions + more[..n]), more[n], i, id, s);
    }
  }

  lemma {:induction false} ExecRun(actions: seq<Action>, more: seq<Action>, i: nat, id: string, s: Session)
    requires ExecSessions.Opened(s) in Play(actions).ends && s.id == id && ReleasesExec(Play(actions), i, id, s)
    ensures ExecSessions.Opened(s) in Play(actions + more).ends && ReleasesExec(Play(actions + more), i, id, s)
    decreases |more|
  {
    hide Play, Act, Inv, ReleasesExec;
    PlayLast(actions + more);
    if more == [] {
      assert actions + more == actions;
    } else {
      var n := |more| - 1;
      ExecRun(actions, more[..n], i, id, s);
      assert (actions + more)[..|actions| + n] == actions + more[..n];
      EveryRun(actions + more[..n]);
      ExecHeldStep(Play(actions + more[..n]), more[n], i, id, s);
    }
  }

  lemma CloseOpens(x: World, call: Call)
    requires call.CloseNodeShell? || call.CloseExec?
    ensures var y := Act(x, Open(call)); var i := |x.threads|;
      && i < |y.threads| && y.node == x.node && y.execs == x.execs && y.ends == x.ends
      && Exec(ExecSessions.TakeAny(call.id)) in y.threads[i]
      && (call.CloseNodeShell? ==> Node(NodeShells.TakeAny(call.id)) in y.threads[i])
  {
    var list := Begin(call, x.next);
    assert list[|list| - 1] == Exec(ExecSessions.TakeAny(call.id));
    assert call.CloseNodeShell? ==> list[0] == Node(NodeShells.TakeAny(call.id));
  }

  /**
   * In every interleaving: once the thread of a close is done, no exec session that was
   * registered under its id when it was called is, then or ever after; nor, if it closed
   * a node shell, is any node shell that was.
   */
  lemma ClosedIsGone(actions: seq<Action>, call: Call, more: seq<Action>, later: seq<Action>, s: Session)
    requires (call.CloseNodeShell? || call.CloseExec?) && s.id == call.id
    requires var w := Play(actions + [Open(call)] + more); var i := |Play(actions).threads|; i < |w.threads| && w.threads[i] == []
    ensures Has(Play(actions).execs, s) ==> !Has(Play(actions + [Open(call)] + more + later).execs, s)
    ensures call.CloseNodeShell? && Has(Play(actions).node.shells, s) ==> !Has(Play(actions + [Open(call)] + more + later).node.shells, s)
  {
    hide Play, Act, Inv, Past;
    var x, start := Play(actions), actions + [Open(call)];
    var i, w := |x.threads|, start + more;
    PlayLast(start);
    assert start[..|actions|] == actions;
    EveryRun(actions);
    CloseOpens(x, call);
    NothingIn(Play(w).threads[i]);
    if Has(x.execs, s) {
      HeldIsOpened(x, s);
      ExecRun(start, more, i, call.id, s);
      assert ReleasesExec(Play(w), i, call.id, s);
      ExecStaysGone(w, later, s);
    }
    if call.CloseNodeShell? && Has(x.node.shells, s) {
      HeldIsPast(x, s);
      ActStays(x, Open(call), s);
      ShellRun(start, more, i, call.id, s);
      assert ReleasesShell(Play(w), i, call.id, s);
      RunStays(w, later, s);
    }
  }

  lemma NothingIn(list: seq<Work>)
    requires list == []
    ensures forall w :: w !in list
  {
  }

  lemma {:induction false} ExecStaysGone(actions: seq<Action>, more: seq<Action>, s: Session)
    requires ExecSessions.Opened(s) in Play(actions).ends && !Has(Play(actions).execs, s)
    ensures ExecSessions.Opened(s) in Play(actions + more).ends && !Has(Play(actions + more).execs, s)
    decreases |more|
  {
    hide Play, Act, Inv;
    PlayLast(actions + more);
    if more == [] {
      assert actions + more == actions;
    } else {
      var n := |more| - 1;
      ExecStaysGone(actions, more[..n], s);
      assert (actions + more)[..|actions| + n] == actions + more[..n];
      EveryRun(actions + more[..n]);
      ExecGone(Play(actions + more[..n]), more[n], s);
    }
  }

  /** The thread has not moved since it was opened. */
  lemma {:induction false} Unmoved(actions: seq<Action>, more: seq<Action>, i: nat)
    requires i < |Play(actions).threads| && forall k :: 0 <= k < |more| ==> !(more[k].Run? && more[k].thread == i)
    ensures i < |Play(actions + more).threads| && Play(actions + more).threads[i] == Play(actions).threads[i]
    decreases |more|
  {
    hide Play, Act;
    PlayLast(actions + more);
    if more == [] {
      assert actions + more == actions;
    } else {
      var n := |more| - 1;
      Unmoved(actions, more[..n], i);
      assert (actions + more)[..|actions| + n] == actions + more[..n];
      OthersMove(Play(actions + more[..n]), more[n], i);
    }
  }

  lemma OthersMove(x: World, a: Action, i: nat)
    requires i < |x.threads| && !(a.Run? && a.thread == i)
    ensures i < |Act(x, a).threads| && Act(x, a).threads[i] == x.threads[i]
  {
    hide Step, Cons, Begin;
    if a.Run? && a.thread < |x.threads| && x.threads[a.thread] != [] {
      var n, l, s := StepThreads(x, a.thread, a.ok);
    }
  }

  /**
   * And already from the first step of the close of a node shell on: what is registered
   * under its id when it takes that step never is a registered node shell again.
   */
  lemma CloseTakesWhatIsThere(actions: seq<Action>, id: string, more: seq<Action>, ok: bool, later: seq<Action>, s: Session)
    requires var i := |Play(actions).threads|; forall k :: 0 <= k < |more| ==> !(more[k].Run? && more[k].thread == i)
    requires s.id == id && Has(Play(actions + [Open(CloseNodeShell(id))] + more).node.shells, s)
    ensures var i := |Play(actions).threads|;
      !Has(Play(actions + [Open(CloseNodeShell(id))] + more + [Run(i, ok)] + later).node.shells, s)
  {
    hide Play, Act, Inv, Past;
    var i, start := |Play(actions).threads|, actions + [Open(CloseNodeShell(id))];
    PlayLast(start);
    assert start[..|actions|] == actions;
    CloseStarts(Play(actions), id);
    Unmoved(start, more, i);
    var before := start + more;
    EveryRun(before);
    HeldIsPast(Play(before), s);
    var after := before + [Run(i, ok)];
    PlayLast(after);
    assert after[..|before|] == before;
    TakesShell(Play(before), i, ok, id);
    ActStays(Play(before), Run(i, ok), s);
    RunStays(after, later, s);
  }

  lemma CloseStarts(x: World, id: string)
    ensures At(Act(x, Open(CloseNodeShell(id))), |x.threads|, Node(NodeShells.TakeAny(id)))
  {
  }

  // ---- A creation that failed ----

  /** A step of the creator of `s` behind its registration, up to the one that opens the exec session or gives the shell up. */
  predicate Minds(w: Work, s: Session) {
    match w
    case Node(n) => n == NodeShells.CreatePod(s) || n == NodeShells.CheckOwner(s) || n == NodeShells.WaitPod(s) || n == NodeShells.TakeOwn(s, Caller)
    case Exec(e) => e == ExecSessions.Start(s) || e == ExecSessions.NewExecutor(s) || e == ExecSessions.Register(s)
    case _ => false
  }

  /** A registered shell whose exec session was not opened has its creator still at work. */
  predicate Minded(x: World, s: Session) {
    Has(x.node.shells, s) && ExecSessions.Opened(s) !in x.ends ==>
      exists i, j :: 0 <= i < |x.threads| && 0 <= j < |x.threads[i]| && Minds(x.threads[i][j], s)
  }

  lemma NodeMinds(t: NodeShells.Tables, n: NodeShells.Work, ok: bool, s: Session)
    ensures var e := NodeShells.Do(t, n, ok);
      Has(e.t.shells, s) && (Minds(Node(n), s) || !Has(t.shells, s)) ==> Minds(FromNode(e.next), s) || Minds(FromNode(e.last), s)
  {
  }

  lemma ExecMinds(t: Registry, n: ExecSessions.Work, ok: bool, s: Session)
    requires s.node && Minds(Exec(n), s)
    ensures var e := ExecSessions.Do(t, n, ok);
      Minds(FromExec(e.next), s) || Minds(FromExec(e.last), s) || e.event == ExecSessions.Opened(s)
  {
  }

  /** What goes on in the thread is in its list. */
  lemma InOnward(list: seq<Work>, a: Work, b: Work, w: Work)
    requires list != [] && w != Idle && (w == a || w == b || w in list[1..])
    ensures exists j :: 0 <= j < |Cons(a, Cons(b, list[1..]))| && Cons(a, Cons(b, list[1..]))[j] == w
  {
    assert w in Cons(a, Cons(b, list[1..]));
  }

  lemma MindedOn(x: World, y: World, i: nat, a: Work, b: Work, c: Work, s: Session)
    requires i < |x.threads| && x.threads[i] != []
    requires y.threads == x.threads[i := Cons(a, Cons(b, x.threads[i][1..]))] + [Cons(c, [])]
    requires Minded(x, s) && (ExecSessions.Opened(s) in x.ends ==> ExecSessions.Opened(s) in y.ends)
    requires Has(y.node.shells, s) && (Minds(x.threads[i][0], s) || !Has(x.node.shells, s)) ==>
      Minds(a, s) || Minds(b, s) || ExecSessions.Opened(s) in y.ends
    ensures Minded(y, s)
  {
    hide Minds, Has, Cons;
    if Has(y.node.shells, s) && ExecSessions.Opened(s) !in y.ends {
      NotIdle(s);
      var list := x.threads[i];
      if Minds(a, s) || Minds(b, s) {
        InOnward(list, a, b, if Minds(a, s) then a else b);
        assert y.threads[i] == Cons(a, Cons(b, list[1..]));
      } else {
        var p, q :| 0 <= p < |x.threads| && 0 <= q < |x.threads[p]| && Minds(x.threads[p][q], s);
        if p == i {
          assert list[1..][q - 1] == list[q];
          InOnward(list, a, b, list[q]);
          assert y.threads[i] == Cons(a, Cons(b, list[1..]));
        } else {
          assert y.threads[p] == x.threads[p];
        }
      }
    }
  }

  lemma NotIdle(s: Session)
    ensures !Minds(Idle, s)
  {
  }

  lemma StepMinded(x: World, i: nat, ok: bool, s: Session)
    requires i < |x.threads| && x.threads[i] != [] && s.node && Minded(x, s)
    ensures Minded(Step(x, i, ok), s)
  {
    hide Minds, Minded, Has, Cons, NodeShells.Do, ExecSessions.Do, Handoff.Do, FromNode, FromExec, FromHand;
    var y := Step(x, i, ok);
    match x.threads[i][0]
    case Node(n) =>
      var e := NodeShells.Do(x.node, n, ok);
      NodeMinds(x.node, n, ok, s);
      MindedOn(x, y, i, FromNode(e.next), FromNode(e.last), Idle, s);
    case Exec(n) =>
      var e := ExecSessions.Do(x.execs, n, ok);
      if Minds(Exec(n), s) {
        ExecMinds(x.execs, n, ok, s);
      }
      MindedOn(x, y, i, FromExec(e.next), FromExec(e.last), FromExec(e.spawn), s);
    case Hand(h) =>
      var e := Handoff.Do(x.detached, x.node.shells, x.execs, h, x.next);
      NoHandMinds(h, s);
      MindedOn(x, y, i, FromHand(e.next), FromHand(e.last), FromHand(e.spawn), s);
    case Idle =>
      NotIdle(s);
      MindedOn(x, y, i, Idle, Idle, Idle, s);
  }

  lemma NoHandMinds(h: Handoff.Work, s: Session)
    ensures !Minds(Hand(h), s)
  {
  }

  lemma {:induction false} EveryRunMinded(actions: seq<Action>, s: Session)
    requires s.node
    ensures Minded(Play(actions), s)
  {
    hide Play, Step, Begin, Minds;
    PlayLast(actions);
    if actions != [] {
      var n := |actions| - 1;
      var x, a := Play(actions[..n]), actions[n];
      EveryRunMinded(actions[..n], s);
      if a.Run? && a.thread < |x.threads| && x.threads[a.thread] != [] {
        StepMinded(x, a.thread, a.ok, s);
      } else {
        StillMinded(x, Act(x, a), s);
      }
    }
  }

  lemma StillMinded(x: World, y: World, s: Session)
    requires Minded(x, s) && y.node == x.node && y.ends == x.ends && x.threads <= y.threads
    ensures Minded(y, s)
  {
    hide Minds;
    assert forall i :: 0 <= i < |x.threads| ==> y.threads[i] == x.threads[i];
  }

  /**
   * Whatever failed on the way, and whoever closed what meanwhile: once every thread is
   * done, a node shell that is still registered is one whose exec session was opened.
   */
  lemma QuietShells(actions: seq<Action>, s: Session)
    requires Quiet(Play(actions)) && s.node && Has(Play(actions).node.shells, s)
    ensures ExecSessions.Opened(s) in Play(actions).ends
  {
    hide Play;
    EveryRunMinded(actions, s);
  }
}
