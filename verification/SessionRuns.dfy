// What every run of the session protocol guarantees: helper pods, exec
// teardown, onClosed and grace timers.

module SessionRuns {
  import opened Ownership
  import opened Sessions
  import NodeShells
  import ExecSessions
  import Handoff

  // ---- Helper pods ----

  /** Who is going to ask for the deletion of the pod of `s`, in numbers. */
  function Holders(x: World, s: Session): nat {
    One(Has(x.node.shells, s) && s in x.node.named)                        // the registry, with the name recorded
    + HowMany(x.threads, Checking, s)                                      // its creator, before it looks whether the entry is its own
    + HowMany(x.threads, Deleting, s)                                      // its creator, after it saw that it is not
    + (if s in x.node.named then HowMany(x.threads, Dropping, s) else 0)   // a releaser that took the entry
  }

  /** In every interleaving a created pod is delete-requested at most once; until then it has exactly one holder. */
  lemma PodHasOneHolder(actions: seq<Action>, s: Session)
    ensures var x := Play(actions);
      && x.pods[NodeShells.PodCreated(s)] <= 1
      && Holders(x, s) + x.pods[NodeShells.PodDeleted(s)] + x.pods[NodeShells.PodLost(s)] == x.pods[NodeShells.PodCreated(s)]
  {
    hide Play, HowMany;
    EveryRun(actions);
    assert Keeps(Play(actions), s);
  }

  /** The next step of a run registers a node shell over the entry of `s`, whose pod name is recorded. */
  predicate Overwrites(x: World, a: Action, s: Session) {
    && a.Run? && a.thread < |x.threads| && x.threads[a.thread] != []
    && x.threads[a.thread][0].Node? && x.threads[a.thread][0].n.Register?
    && x.threads[a.thread][0].n.s.id == s.id && Has(x.node.shells, s) && s in x.node.named
  }

  lemma {:induction false} LostInLog(actions: seq<Action>, s: Session)
    ensures NodeShells.PodLost(s) in Play(actions).pods
            <==> exists k :: 0 <= k < |actions| && Overwrites(Play(actions[..k]), actions[k], s)
  {
    hide Play, Act, Overwrites, Inv;
    PlayLast(actions);
    if actions != [] {
      var n := |actions| - 1;
      var before := actions[..n];
      LostInLog(before, s);
      KeyedRun(before);
      ActLoses(Play(before), actions[n], s);
      assert forall k :: 0 <= k < n ==> before[..k] == actions[..k];
    }
  }

  /** The pod of `s` exists, nobody asked for its deletion, and nobody is going to. */
  predicate Orphaned(x: World, s: Session) {
    NodeShells.PodCreated(s) in x.pods && NodeShells.PodDeleted(s) !in x.pods && Holders(x, s) == 0
  }

  /** A pod is orphaned exactly when some registration wrote over its entry. */
  lemma LostIffOverwritten(actions: seq<Action>, s: Session)
    ensures Orphaned(Play(actions), s) <==> exists k :: 0 <= k < |actions| && Overwrites(Play(actions[..k]), actions[k], s)
  {
    hide Play, Overwrites, Holders;
    LostInLog(actions, s);
    PodHasOneHolder(actions, s);
  }

  lemma PlayLast(actions: seq<Action>)
    ensures actions == [] ==> Play(actions) == IDLE
    ensures actions != [] ==> Play(actions) == Act(Play(actions[..|actions| - 1]), actions[|actions| - 1])
  {
    hide Act;
  }

  lemma KeyedRun(actions: seq<Action>)
    ensures Keyed(Play(actions))
  {
    hide Play;
    EveryRun(actions);
  }

  lemma ActLoses(x: World, a: Action, s: Session)
    requires Keyed(x)
    ensures NodeShells.PodLost(s) in Act(x, a).pods <==> NodeShells.PodLost(s) in x.pods || Overwrites(x, a, s)
  {
    hide Keyed, Advance, NodeShells.Do, ExecSessions.Do, Handoff.Do, NodeStep, ExecStep, HandStep;
    if a.Run? && a.thread < |x.threads| && x.threads[a.thread] != [] {
      var i := a.thread;
      match x.threads[i][0]
      case Node(n) => NodeStepLoses(x, i, n, a.ok, s);
      case Exec(e) => ExecStepTables(x, i, e, a.ok);
      case Hand(h) => HandStepTables(x, i, h);
      case Idle => IdleTables(x, i);
    }
  }

  lemma NodeStepLoses(x: World, i: nat, n: NodeShells.Work, ok: bool, s: Session)
    requires At(x, i, Node(n)) && Keyed(x)
    ensures NodeShells.PodLost(s) in NodeStep(x, i, n, ok).pods <==>
            NodeShells.PodLost(s) in x.pods || (n.Register? && n.s.id == s.id && Has(x.node.shells, s) && s in x.node.named)
  {
    hide NodeStep;
    NodeStepTables(x, i, n, ok, s);
  }

  lemma IdleTables(x: World, i: nat)
    requires At(x, i, Idle)
    ensures var y := Advance(x, i, Idle, Idle, Idle);
      y.pods == x.pods && y.ends == x.ends && y.timers == x.timers
  {
  }

  /** Nothing is left to do. */
  predicate Quiet(x: World) { forall i :: 0 <= i < |x.threads| ==> x.threads[i] == [] }

  lemma {:induction false} QuietCounts(threads: seq<seq<Work>>, r: Role, s: Session)
    requires forall i :: 0 <= i < |threads| ==> threads[i] == []
    ensures HowMany(threads, r, s) == 0
  {
    if threads != [] {
      QuietCounts(threads[..|threads| - 1], r, s);
    }
  }

  // ---- Exec sessions ----

  /**
   * An exec session is torn down at most once, by whoever took its entry; until
   * then it is registered, or with its taker, or lost with an overwritten entry.
   */
  lemma ExecTornDownOnce(actions: seq<Action>, s: Session)
    ensures var x := Play(actions);
      && x.ends[ExecSessions.Opened(s)] <= 1
      && One(Has(x.execs, s)) + HowMany(x.threads, Tearing, s) + x.ends[ExecSessions.TornDown(s)] + x.ends[ExecSessions.Lost(s)]
         == x.ends[ExecSessions.Opened(s)]
      && x.ends[ExecSessions.Taken(s)] == HowMany(x.threads, Tearing, s) + x.ends[ExecSessions.TornDown(s)]
  {
    hide Play, HowMany;
    EveryRun(actions);
    assert Keeps(Play(actions), s);
  }

  /** The next step of a run registers an exec session over the entry of `s`. */
  predicate ExecOverwrites(x: World, a: Action, s: Session) {
    && a.Run? && a.thread < |x.threads| && x.threads[a.thread] != []
    && x.threads[a.thread][0].Exec? && x.threads[a.thread][0].x.Register?
    && x.threads[a.thread][0].x.s.id == s.id && Has(x.execs, s)
  }

  lemma {:induction false} ExecLostInLog(actions: seq<Action>, s: Session)
    ensures ExecSessions.Lost(s) in Play(actions).ends
            <==> exists k :: 0 <= k < |actions| && ExecOverwrites(Play(actions[..k]), actions[k], s)
  {
    hide Play, Act, ExecOverwrites, Inv;
    PlayLast(actions);
    if actions != [] {
      var n := |actions| - 1;
      var before := actions[..n];
      ExecLostInLog(before, s);
      KeyedRun(before);
      ActLosesExec(Play(before), actions[n], s);
      assert forall k :: 0 <= k < n ==> before[..k] == actions[..k];
    }
  }

  lemma ActLosesExec(x: World, a: Action, s: Session)
    requires Keyed(x)
    ensures ExecSessions.Lost(s) in Act(x, a).ends <==> ExecSessions.Lost(s) in x.ends || ExecOverwrites(x, a, s)
  {
    hide Keyed, Advance, NodeShells.Do, ExecSessions.Do, Handoff.Do, NodeStep, ExecStep, HandStep;
    if a.Run? && a.thread < |x.threads| && x.threads[a.thread] != [] {
      var i := a.thread;
      match x.threads[i][0]
      case Node(n) => NodeStepTables(x, i, n, a.ok, s);
      case Exec(e) => ExecStepLoses(x, i, e, a.ok, s);
      case Hand(h) => HandStepTables(x, i, h);
      case Idle => IdleTables(x, i);
    }
  }

  lemma ExecStepLoses(x: World, i: nat, e: ExecSessions.Work, ok: bool, s: Session)
    requires At(x, i, Exec(e)) && Keyed(x)
    ensures ExecSessions.Lost(s) in ExecStep(x, i, e, ok).ends <==>
            ExecSessions.Lost(s) in x.ends || (e.Register? && e.s.id == s.id && Has(x.execs, s))
  {
    hide ExecStep;
    ExecStepTables(x, i, e, ok);
  }

  /** `s` was opened, was never torn down, and neither the registry nor a taker has it. */
  predicate Stranded(x: World, s: Session) {
    && ExecSessions.Opened(s) in x.ends && ExecSessions.TornDown(s) !in x.ends
    && !Has(x.execs, s) && HowMany(x.threads, Tearing, s) == 0
  }

  /** An exec session is stranded exactly when some registration wrote over its entry; any other is torn down once. */
  lemma StrandedIffOverwritten(actions: seq<Action>, s: Session)
    ensures Stranded(Play(actions), s) <==> exists k :: 0 <= k < |actions| && ExecOverwrites(Play(actions[..k]), actions[k], s)
  {
    hide Play, ExecOverwrites, HowMany;
    ExecLostInLog(actions, s);
    ExecTornDownOnce(actions, s);
  }

  /** onClosed is called at most once, and only when the session's own stream won it; a node shell is released first. */
  lemma ClosedIsTheStreams(actions: seq<Action>, s: Session)
    ensures var x := Play(actions);
      && x.ends[ExecSessions.Closed(s)] <= x.ends[ExecSessions.StreamWon(s)] <= x.ends[ExecSessions.Taken(s)] <= 1
      && (ExecSessions.Closed(s) in x.ends && s.node ==> !Has(x.node.shells, s))
  {
    hide Play, HowMany;
    EveryRun(actions);
    assert Keeps(Play(actions), s);
  }

  // ---- Grace timers ----

  /** A timer releases only the session whose history it was armed for, and only if its entry was still the registered one. */
  lemma TimerTakesItsOwn(actions: seq<Action>, k: Ticket, s: Session)
    ensures var x := Play(actions);
      (NodeShells.TimerTook(k, s) in x.pods || ExecSessions.TimerTook(k, s) in x.ends) ==>
        && s.id == k.id && s.number == k.history
        && x.timers[Handoff.Fired(k)] == 1 && Handoff.Attached(k) !in x.timers && Handoff.Replaced(k) !in x.timers
  {
    hide Play, HowMany;
    EveryRun(actions);
    assert Logged(Play(actions), k, s);
    assert TicketKeeps(Play(actions), k);
  }

  lemma {:induction false} LogsGrow(actions: seq<Action>, more: seq<Action>)
    ensures Play(actions).timers <= Play(actions + more).timers
  {
    hide Play, Act;
    PlayLast(actions + more);
    if more == [] {
      assert actions + more == actions;
    } else {
      var n := |more| - 1;
      LogsGrow(actions, more[..n]);
      assert (actions + more)[..|actions| + n] == actions + more[..n];
      ActGrows(Play(actions + more[..n]), more[n]);
    }
  }

  lemma ActGrows(x: World, a: Action)
    ensures x.timers <= Act(x, a).timers
  {
    hide FromNode, FromExec, FromHand, NodeShells.Do, ExecSessions.Do, Handoff.Do;
  }

  /** A timer whose entry was attached or replaced releases nothing, however the run goes on. */
  lemma DisarmedTimerTakesNothing(actions: seq<Action>, more: seq<Action>, k: Ticket, s: Session)
    requires Handoff.Attached(k) in Play(actions).timers || Handoff.Replaced(k) in Play(actions).timers
    ensures NodeShells.TimerTook(k, s) !in Play(actions + more).pods
    ensures ExecSessions.TimerTook(k, s) !in Play(actions + more).ends
  {
    hide Play;
    LogsGrow(actions, more);
    TimerTakesItsOwn(actions + more, k, s);
  }

  /** Thread `i` takes one step, its API call succeeding. */
  function Next(x: World, i: nat): World { Act(x, Run(i, true)) }

  /** What thread `i` has to do next. */
  predicate List(x: World, i: nat, list: seq<Work>) { i < |x.threads| && x.threads[i] == list }

  lemma NodeNext(x: World, i: nat, n: NodeShells.Work, rest: seq<Work>)
    requires List(x, i, [Node(n)] + rest)
    ensures var y := Next(x, i); var e := NodeShells.Do(x.node, n, true);
      && List(y, i, Cons(FromNode(e.next), Cons(FromNode(e.last), rest)))
      && y.node == e.t && y.pods == x.pods + multiset{e.event} && y.detached == x.detached && y.execs == x.execs
      && y.ends == x.ends
      && forall j :: 0 <= j < |x.threads| && j != i ==> List(y, j, x.threads[j])
  {
    hide NodeShells.Do, FromNode, Cons;
    assert ([Node(n)] + rest)[1..] == rest;
  }

  lemma ExecNext(x: World, i: nat, n: ExecSessions.Work, rest: seq<Work>)
    requires List(x, i, [Exec(n)] + rest)
    ensures var y := Next(x, i); var e := ExecSessions.Do(x.execs, n, true);
      && List(y, i, Cons(FromExec(e.next), Cons(FromExec(e.last), rest)))
      && y.execs == e.t && y.ends == x.ends + multiset{e.event} + multiset{e.other}
      && y.node == x.node && y.detached == x.detached && y.pods == x.pods
      && forall j :: 0 <= j < |x.threads| && j != i ==> List(y, j, x.threads[j])
  {
    hide ExecSessions.Do, FromExec, Cons;
    assert ([Exec(n)] + rest)[1..] == rest;
  }

  lemma HandNext(x: World, i: nat, h: Handoff.Work, rest: seq<Work>)
    requires List(x, i, [Hand(h)] + rest)
    ensures var y := Next(x, i); var e := Handoff.Do(x.detached, x.node.shells, x.execs, h, x.next);
      && List(y, i, Cons(FromHand(e.next), Cons(FromHand(e.last), rest)))
      && y.detached == e.t && y.node == x.node && y.execs == x.execs && y.pods == x.pods && y.ends == x.ends
  {
    hide Handoff.Do, FromHand, Cons;
    assert ([Hand(h)] + rest)[1..] == rest;
  }

  /** Thread `i` runs alone for `n` steps, every API call succeeding. */
  function Alone(x: World, i: nat, n: nat): World {
    if n == 0 then x else Next(Alone(x, i, n - 1), i)
  }

  lemma {:induction false} AloneThen(x: World, i: nat, m: nat, n: nat)
    ensures Alone(Alone(x, i, m), i, n) == Alone(x, i, m + n)
  {
    hide Next;
    if n > 0 {
      AloneThen(x, i, m, n - 1);
    }
  }

  lemma AloneSteps(x: World, i: nat)
    ensures Alone(x, i, 1) == Next(x, i) && Alone(x, i, 3) == Next(Next(Next(x, i), i), i)
  {
    hide Next;
    assert Alone(x, i, 2) == Next(Alone(x, i, 1), i) && Alone(x, i, 3) == Next(Alone(x, i, 2), i);
  }

  /** The entry under the ticket's id belongs to the session it was made for. */
  predicate Matches(registry: map<string, Session>, k: Ticket) {
    k.id in registry && registry[k.id].number == k.history
  }

  /** What is left of a registry when the ticket's session is gone. */
  function Left(registry: map<string, Session>, k: Ticket): map<string, Session> {
    if Matches(registry, k) then registry - {k.id} else registry
  }

  /** The timer's release of the node shell: its entry goes if it is the ticket's, its pod is deleted if it is named. */
  lemma ShellReleased(x: World, i: nat, k: Ticket, rest: seq<Work>) returns (n: nat)
    requires List(x, i, [Hand(Handoff.ShellOf(k))] + rest) && KeyedById(x.node.shells)
    ensures n <= 3
    ensures var y := Alone(x, i, n);
      && List(y, i, rest) && y.node.shells == Left(x.node.shells, k)
      && y.detached == x.detached && y.execs == x.execs && y.ends == x.ends && y.node.named == x.node.named
      && (forall s :: y.pods[NodeShells.PodDeleted(s)] == x.pods[NodeShells.PodDeleted(s)]
                      + One(Matches(x.node.shells, k) && x.node.shells[k.id] == s && s in x.node.named))
  {
    hide Next, List;
    AloneSteps(x, i);
    HandNext(x, i, Handoff.ShellOf(k), rest);
    n := 1;
    if Matches(x.node.shells, k) {
      var s, x1 := x.node.shells[k.id], Next(x, i);
      NodeNext(x1, i, NodeShells.TakeOwn(s, Timer(k)), rest);
      var x2 := Next(x1, i);
      NodeNext(x2, i, NodeShells.DropPod(s), rest);
      n := 3;
    }
  }

  lemma ExecReleased(x: World, i: nat, k: Ticket, rest: seq<Work>) returns (n: nat)
    requires List(x, i, [Hand(Handoff.ExecOf(k))] + rest) && KeyedById(x.execs)
    ensures n <= 3
    ensures var y := Alone(x, i, n);
      && List(y, i, rest) && y.execs == Left(x.execs, k)
      && y.detached == x.detached && y.node == x.node && y.pods == x.pods
      && (forall s :: y.ends[ExecSessions.TornDown(s)] == x.ends[ExecSessions.TornDown(s)]
                      + One(Matches(x.execs, k) && x.execs[k.id] == s))
  {
    hide Next, List;
    AloneSteps(x, i);
    HandNext(x, i, Handoff.ExecOf(k), rest);
    n := 1;
    if Matches(x.execs, k) {
      var s, x1 := x.execs[k.id], Next(x, i);
      ExecNext(x1, i, ExecSessions.TakeOwn(s, Timer(k)), rest);
      var x2 := Next(x1, i);
      ExecNext(x2, i, ExecSessions.TearDown(s), rest);
      n := 3;
    }
  }

  /**
   * A grace period that ends with nobody attached closes whatever is registered of
   * its session, a shell still starting, a plain exec or both, and nothing else:
   * left alone, the timer's thread empties both registries of it, deletes its pod if
   * it has a named one and tears its exec session down.
   */
  lemma GraceClosesTheSession(x: World, i: nat, k: Ticket) returns (n: nat)
    requires List(x, i, [Hand(Handoff.Fire(k))]) && Handoff.Holds(x.detached, k) && Keyed(x)
    ensures n <= 7
    ensures var y := Alone(x, i, n);
      && List(y, i, []) && k.id !in y.detached
      && y.node.shells == Left(x.node.shells, k) && y.execs == Left(x.execs, k)
      && (forall s :: y.pods[NodeShells.PodDeleted(s)] == x.pods[NodeShells.PodDeleted(s)]
                      + One(Matches(x.node.shells, k) && x.node.shells[k.id] == s && s in x.node.named))
      && (forall s :: y.ends[ExecSessions.TornDown(s)] == x.ends[ExecSessions.TornDown(s)]
                      + One(Matches(x.execs, k) && x.execs[k.id] == s))
  {
    hide Next, List, Alone, Left, Matches;
    var exec := [Hand(Handoff.ExecOf(k))];
    assert [Hand(Handoff.Fire(k))] == [Hand(Handoff.Fire(k))] + [];
    HandNext(x, i, Handoff.Fire(k), []);
    AloneSteps(x, i);
    var x1 := Next(x, i);
    assert [Hand(Handoff.ShellOf(k))] + (exec + []) == [Hand(Handoff.ShellOf(k))] + exec && exec == exec + [];
    var a := ShellReleased(x1, i, k, exec);
    var x2 := Alone(x1, i, a);
    var b := ExecReleased(x2, i, k, []);
    AloneThen(x, i, 1, a);
    AloneThen(x, i, 1 + a, b);
    n := 1 + a + b;
  }

  // ---- The gap ----

  /** Two Creates for one id; the second releases before the first registers, and registers after it has a pod. */
  const GAP: seq<Action> := [Open(CreateNodeShell("a")), Open(CreateNodeShell("a")),
    Run(1, true), Run(1, true),
    Run(0, true), Run(0, true), Run(0, true), Run(0, true), Run(0, true),
    Run(1, true)]

  const FIRST := Session("a", 0, true)
  const SECOND := Session("a", 1, true)

  lemma PlaySnoc(actions: seq<Action>, n: nat)
    requires n < |actions|
    ensures Play(actions[..n + 1]) == Act(Play(actions[..n]), actions[n])
  {
    hide Act;
    assert actions[..n + 1][..n] == actions[..n];
  }

  lemma OpenAdds(x: World, call: Call)
    ensures var y := Act(x, Open(call));
      && List(y, |x.threads|, Begin(call, x.next)) && |y.threads| == |x.threads| + 1 && y.next == x.next + 1
      && y.node == x.node && y.execs == x.execs && forall j :: 0 <= j < |x.threads| ==> List(y, j, x.threads[j])
  {
    hide Begin;
  }

  lemma Opened()
    ensures var x := Play(GAP[..2]);
      && List(x, 0, Begin(CreateNodeShell("a"), 0)) && List(x, 1, Begin(CreateNodeShell("a"), 1)) && x.node == IDLE.node
  {
    hide Play, Act, Begin;
    PlaySnoc(GAP, 0);
    PlaySnoc(GAP, 1);
    PlayLast([]);
    assert GAP[..0] == [];
    OpenAdds(IDLE, CreateNodeShell("a"));
    OpenAdds(Play(GAP[..1]), CreateNodeShell("a"));
  }

  lemma SecondReleasesFirst()
    ensures var x := Play(GAP[..4]);
      && List(x, 0, Begin(CreateNodeShell("a"), 0)) && List(x, 1, [Node(NodeShells.Register(SECOND))]) && x.node == IDLE.node
  {
    hide Play, Act;
    Opened();
    PlaySnoc(GAP, 2);
    PlaySnoc(GAP, 3);
    var x := Play(GAP[..2]);
    TakeAndFind(x, 1, SECOND);
  }

  lemma TakeAndFind(x: World, i: nat, s: Session)
    requires List(x, i, Begin(CreateNodeShell(s.id), s.number)) && s.node && s.id !in x.node.shells
    ensures var y := Next(Next(x, i), i);
      && List(y, i, [Node(NodeShells.Register(s))]) && y.node == x.node
      && forall j :: 0 <= j < |x.threads| && j != i ==> List(y, j, x.threads[j])
  {
    assert [Node(NodeShells.TakeAny(s.id))] + [Node(NodeShells.FindNode(s))] == Begin(CreateNodeShell(s.id), s.number);
    NodeNext(x, i, NodeShells.TakeAny(s.id), [Node(NodeShells.FindNode(s))]);
    var x1 := Next(x, i);
    assert [Node(NodeShells.FindNode(s))] + [] == [Node(NodeShells.FindNode(s))];
    NodeNext(x1, i, NodeShells.FindNode(s), []);
  }

  lemma FirstGetsItsPod()
    ensures var x := Play(GAP[..9]);
      && List(x, 1, [Node(NodeShells.Register(SECOND))]) && Has(x.node.shells, FIRST) && FIRST in x.node.named
  {
    hide Play, Act;
    SecondReleasesFirst();
    PlaySnoc(GAP, 4);
    PlaySnoc(GAP, 5);
    PlaySnoc(GAP, 6);
    PlaySnoc(GAP, 7);
    PlaySnoc(GAP, 8);
    var x := Play(GAP[..4]);
    TakeAndFind(x, 0, FIRST);
    RegisterAndCreate(Next(Next(x, 0), 0), 0, FIRST);
  }

  /** A creator left alone from its registration on gets its pod recorded. */
  lemma RegisterAndCreate(x: World, i: nat, s: Session)
    requires List(x, i, [Node(NodeShells.Register(s))])
    ensures var y := Next(Next(Next(x, i), i), i);
      && List(y, i, [Node(NodeShells.WaitPod(s))]) && Has(y.node.shells, s) && s in y.node.named
      && forall j :: 0 <= j < |x.threads| && j != i ==> List(y, j, x.threads[j])
  {
    hide Next, List, Has;
    RegisterStep(x, i, s);
    CreateStep(Next(x, i), i, s);
    CheckStep(Next(Next(x, i), i), i, s);
    OthersWait(x, Next(x, i), Next(Next(x, i), i), Next(Next(Next(x, i), i), i), i);
  }

  predicate OthersKept(x: World, y: World, i: nat) {
    |x.threads| <= |y.threads| && forall j :: 0 <= j < |x.threads| && j != i ==> y.threads[j] == x.threads[j]
  }

  lemma OthersWait(x: World, a: World, b: World, y: World, i: nat)
    requires OthersKept(x, a, i) && OthersKept(a, b, i) && OthersKept(b, y, i)
    ensures forall j :: 0 <= j < |x.threads| && j != i ==> List(y, j, x.threads[j])
  {
  }

  lemma RegisterStep(x: World, i: nat, s: Session)
    requires List(x, i, [Node(NodeShells.Register(s))])
    ensures var y := Next(x, i); List(y, i, [Node(NodeShells.CreatePod(s))]) && Has(y.node.shells, s) && OthersKept(x, y, i)
  {
    assert [Node(NodeShells.Register(s))] + [] == [Node(NodeShells.Register(s))];
    NodeNext(x, i, NodeShells.Register(s), []);
  }

  lemma CreateStep(x: World, i: nat, s: Session)
    requires List(x, i, [Node(NodeShells.CreatePod(s))])
    ensures var y := Next(x, i); List(y, i, [Node(NodeShells.CheckOwner(s))]) && y.node == x.node && OthersKept(x, y, i)
  {
    assert [Node(NodeShells.CreatePod(s))] + [] == [Node(NodeShells.CreatePod(s))];
    NodeNext(x, i, NodeShells.CreatePod(s), []);
  }

  lemma CheckStep(x: World, i: nat, s: Session)
    requires List(x, i, [Node(NodeShells.CheckOwner(s))]) && Has(x.node.shells, s)
    ensures var y := Next(x, i);
      List(y, i, [Node(NodeShells.WaitPod(s))]) && Has(y.node.shells, s) && s in y.node.named && OthersKept(x, y, i)
  {
    assert [Node(NodeShells.CheckOwner(s))] + [] == [Node(NodeShells.CheckOwner(s))];
    NodeNext(x, i, NodeShells.CheckOwner(s), []);
  }

  /** The registration overwrites an entry without looking: the first session's pod is left with no holder and no delete. */
  lemma GapLosesThePod()
    ensures Orphaned(Play(GAP), FIRST)
  {
    hide Play, Holders;
    FirstGetsItsPod();
    assert GAP[..10] == GAP;
    assert Overwrites(Play(GAP[..9]), GAP[9], FIRST);
    LostIffOverwritten(GAP, FIRST);
    PodHasOneHolder(GAP, FIRST);
  }

  /** The same of exec sessions: the second release finds nothing, and the second registration overwrites. */
  const EXEC_GAP: seq<Action> := [Open(CreateExec("a", true)), Open(CreateExec("a", true)),
    Run(1, true), Run(0, true), Run(0, true), Run(0, true), Run(1, true), Run(1, true)]

  const FIRST_EXEC := Session("a", 0, false)
  const SECOND_EXEC := Session("a", 1, false)

  lemma ExecsOpened()
    ensures var x := Play(EXEC_GAP[..2]);
      && List(x, 0, [Exec(ExecSessions.Start(FIRST_EXEC))]) && List(x, 1, [Exec(ExecSessions.Start(SECOND_EXEC))])
      && x.execs == map[]
  {
    hide Play, Act;
    PlaySnoc(EXEC_GAP, 0);
    PlaySnoc(EXEC_GAP, 1);
    PlayLast([]);
    assert EXEC_GAP[..0] == [];
    OpenAdds(IDLE, CreateExec("a", true));
    OpenAdds(Play(EXEC_GAP[..1]), CreateExec("a", true));
  }

  lemma StartNext(x: World, i: nat, s: Session)
    requires List(x, i, [Exec(ExecSessions.Start(s))]) && s.id !in x.execs
    ensures var y := Next(x, i);
      && List(y, i, [Exec(ExecSessions.NewExecutor(s))]) && y.execs == x.execs
      && forall j :: 0 <= j < |x.threads| && j != i ==> List(y, j, x.threads[j])
  {
    hide Next;
    assert [Exec(ExecSessions.Start(s))] + [] == [Exec(ExecSessions.Start(s))];
    ExecNext(x, i, ExecSessions.Start(s), []);
  }

  lemma ExecutorNext(x: World, i: nat, s: Session)
    requires List(x, i, [Exec(ExecSessions.NewExecutor(s))])
    ensures var y := Next(x, i);
      && List(y, i, [Exec(ExecSessions.Register(s))]) && y.execs == x.execs
      && forall j :: 0 <= j < |x.threads| && j != i ==> List(y, j, x.threads[j])
  {
    hide Next;
    assert [Exec(ExecSessions.NewExecutor(s))] + [] == [Exec(ExecSessions.NewExecutor(s))];
    ExecNext(x, i, ExecSessions.NewExecutor(s), []);
  }

  lemma RegisterNext(x: World, i: nat, s: Session)
    requires List(x, i, [Exec(ExecSessions.Register(s))])
    ensures var y := Next(x, i);
      && y.execs == x.execs[s.id := s]
      && forall j :: 0 <= j < |x.threads| && j != i ==> List(y, j, x.threads[j])
  {
    hide Next;
    assert [Exec(ExecSessions.Register(s))] + [] == [Exec(ExecSessions.Register(s))];
    ExecNext(x, i, ExecSessions.Register(s), []);
  }

  lemma FirstIsRegistered()
    ensures var x := Play(EXEC_GAP[..7]);
      List(x, 1, [Exec(ExecSessions.Register(SECOND_EXEC))]) && Has(x.execs, FIRST_EXEC)
  {
    hide Play, Act;
    ExecsOpened();
    PlaySnoc(EXEC_GAP, 2);
    PlaySnoc(EXEC_GAP, 3);
    PlaySnoc(EXEC_GAP, 4);
    PlaySnoc(EXEC_GAP, 5);
    PlaySnoc(EXEC_GAP, 6);
    StartNext(Play(EXEC_GAP[..2]), 1, SECOND_EXEC);
    StartNext(Play(EXEC_GAP[..3]), 0, FIRST_EXEC);
    ExecutorNext(Play(EXEC_GAP[..4]), 0, FIRST_EXEC);
    RegisterNext(Play(EXEC_GAP[..5]), 0, FIRST_EXEC);
    ExecutorNext(Play(EXEC_GAP[..6]), 1, SECOND_EXEC);
  }

  /** Two Creates for one id, both past their release before either registers: the first session is never torn down. */
  lemma GapStrandsTheSession()
    ensures Stranded(Play(EXEC_GAP), FIRST_EXEC)
  {
    hide Play, Stranded;
    FirstIsRegistered();
    assert EXEC_GAP[..8] == EXEC_GAP;
    assert ExecOverwrites(Play(EXEC_GAP[..7]), EXEC_GAP[7], FIRST_EXEC);
    StrandedIffOverwritten(EXEC_GAP, FIRST_EXEC);
  }
}
