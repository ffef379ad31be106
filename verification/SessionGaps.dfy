// The window between a creator's release of an id and its own registration: a pod
// or an exec session is lost only when another registration of the id falls in it.

module SessionGaps {
  import opened Ownership
  import opened Sessions
  import opened SessionRuns
  import NodeShells
  import ExecSessions
  import Handoff

  // ---- What a step does to its thread ----

  /** A step only the creator of a session takes. */
  predicate Creates(w: Work) {
    match w
    case Node(n) => n.FindNode? || n.Register? || n.CreatePod? || n.CheckOwner? || n.WaitPod?
    case Exec(e) => e.FindContainer? || e.Start? || e.NewExecutor? || e.Register?
    case _ => false
  }

  /** The next registration of a node shell under `id` is due in this step or the one after. */
  predicate ShellDue(w: Work, id: string) {
    w.Node? && (w.n.FindNode? || w.n.Register?) && w.n.s.id == id
  }

  predicate ExecDue(w: Work, id: string) {
    w.Exec? && (w.x.NewExecutor? || w.x.Register?) && w.x.s.id == id
  }

  type Registry = map<string, Session>

  /** `a` and `b` continue the thread of `w`, and `c` starts one. */
  predicate Continues(w: Work, a: Work, b: Work, c: Work) {
    && !Creates(c) && (Creates(a) ==> b == Idle) && (!Creates(w) ==> !Creates(a) && !Creates(b))
  }

  /** `w` made `after` of the node shells, and its thread goes on with `a` and `b`. */
  predicate ShellsMove(shells: Registry, after: Registry, w: Work, a: Work, b: Work, c: Work, id: string) {
    && Node(NodeShells.TakeAny(id)) !in [a, b, c]
    && (ShellDue(a, id) ==> w.Node? && w.n.FindNode? && ShellDue(w, id)) && !ShellDue(b, id)
    && (id in after ==> id in shells || (ShellDue(w, id) && w.n.Register?))
    && (w == Node(NodeShells.TakeAny(id)) ==> id !in after)
  }

  predicate ExecsMove(execs: Registry, after: Registry, w: Work, a: Work, b: Work, id: string) {
    && (ExecDue(a, id) ==> w.Exec? && ((w.x.NewExecutor? && ExecDue(w, id)) || id !in after)) && (ExecDue(b, id) ==> id !in after)
    && (id in after ==> id in execs || (ExecDue(w, id) && w.x.Register?))
  }

  lemma NodeMoves(t: NodeShells.Tables, n: NodeShells.Work, ok: bool, execs: Registry, id: string)
    ensures var e := NodeShells.Do(t, n, ok);
      var a, b := FromNode(e.next), FromNode(e.last);
      && Continues(Node(n), a, b, Idle)
      && ShellsMove(t.shells, e.t.shells, Node(n), a, b, Idle, id) && ExecsMove(execs, execs, Node(n), a, b, id)
  {
  }

  lemma ExecMoves(t: Registry, n: ExecSessions.Work, ok: bool, shells: Registry, id: string)
    ensures var e := ExecSessions.Do(t, n, ok);
      var a, b, c := FromExec(e.next), FromExec(e.last), FromExec(e.spawn);
      && Continues(Exec(n), a, b, c)
      && ShellsMove(shells, shells, Exec(n), a, b, c, id) && ExecsMove(t, e.t, Exec(n), a, b, id)
  {
  }

  lemma HandMoves(t: map<string, Ticket>, h: Handoff.Work, timer: nat, shells: Registry, execs: Registry, id: string)
    ensures var e := Handoff.Do(t, shells, execs, h, timer);
      var a, b, c := FromHand(e.next), FromHand(e.last), FromHand(e.spawn);
      && Continues(Hand(h), a, b, c)
      && ShellsMove(shells, shells, Hand(h), a, b, c, id) && ExecsMove(execs, execs, Hand(h), a, b, id)
  {
  }

  // ---- Threads between their release and their registration ----

  /** A creator's own next step is the last of its list. */
  predicate CreatesLast(list: seq<Work>) { forall j :: 0 <= j < |list| - 1 ==> !Creates(list[j]) }

  predicate Shaped(x: World) { forall i :: 0 <= i < |x.threads| ==> CreatesLast(x.threads[i]) }

  /** The thread has released `id` and is about to register a node shell under it. */
  predicate InShellGap(list: seq<Work>, id: string) {
    list != [] && ShellDue(list[|list| - 1], id) && Node(NodeShells.TakeAny(id)) !in list
  }

  predicate InExecGap(list: seq<Work>, id: string) {
    list != [] && ExecDue(list[|list| - 1], id)
  }

  predicate ShellsFree(x: World, id: string) {
    forall i :: 0 <= i < |x.threads| && InShellGap(x.threads[i], id) ==> id !in x.node.shells
  }

  predicate ExecsFree(x: World, id: string) {
    forall i :: 0 <= i < |x.threads| && InExecGap(x.threads[i], id) ==> id !in x.execs
  }

  /** The list of the thread that goes on. */
  function Onward(list: seq<Work>, a: Work, b: Work): seq<Work>
    requires list != []
  {
    Cons(a, Cons(b, list[1..]))
  }

  lemma OnwardShaped(list: seq<Work>, a: Work, b: Work, c: Work)
    requires list != [] && CreatesLast(list) && Continues(list[0], a, b, c)
    ensures CreatesLast(Onward(list, a, b)) && CreatesLast(Cons(c, []))
    ensures Creates(list[0]) ==> list[1..] == []
  {
    hide Creates;
  }

  lemma OnwardShellGap(list: seq<Work>, a: Work, b: Work, c: Work, id: string, shells: Registry, after: Registry)
    requires list != [] && CreatesLast(list) && ShellsMove(shells, after, list[0], a, b, c, id)
    requires InShellGap(Onward(list, a, b), id) && (InShellGap(list, id) ==> id !in shells)
    ensures id !in after
  {
    var w, rest := list[0], list[1..];
    var next := Onward(list, a, b);
    if rest != [] {
      assert next[|next| - 1] == rest[|rest| - 1] == list[|list| - 1];
      assert forall v :: v in list ==> v == w || v in rest;
      assert forall v :: v in rest ==> v in next;
      assert !Creates(w);
    } else {
      assert list == [w];
    }
  }

  lemma OnwardExecGap(list: seq<Work>, a: Work, b: Work, id: string, execs: Registry, after: Registry)
    requires list != [] && CreatesLast(list) && ExecsMove(execs, after, list[0], a, b, id)
    requires InExecGap(Onward(list, a, b), id) && (InExecGap(list, id) ==> id !in execs)
    ensures id !in after
  {
    var w, rest := list[0], list[1..];
    var next := Onward(list, a, b);
    if rest != [] {
      assert next[|next| - 1] == rest[|rest| - 1] == list[|list| - 1];
      assert !Creates(w);
    } else {
      assert list == [w];
    }
  }

  /** Thread `i` registers a node shell under `id` while another thread is between its release of `id` and its registration. */
  predicate ShellCrosses(x: World, a: Action, id: string) {
    && a.Run? && a.thread < |x.threads| && x.threads[a.thread] != []
    && ShellDue(x.threads[a.thread][0], id) && x.threads[a.thread][0].n.Register?
    && exists j :: 0 <= j < |x.threads| && j != a.thread && InShellGap(x.threads[j], id)
  }

  /** The same of the exec registry. */
  predicate ExecCrosses(x: World, a: Action, id: string) {
    && a.Run? && a.thread < |x.threads| && x.threads[a.thread] != []
    && ExecDue(x.threads[a.thread][0], id) && x.threads[a.thread][0].x.Register?
    && exists j :: 0 <= j < |x.threads| && j != a.thread && InExecGap(x.threads[j], id)
  }

  lemma AdvanceFree(x: World, y: World, i: nat, ok: bool, a: Work, b: Work, c: Work, id: string)
    requires i < |x.threads| && x.threads[i] != [] && Shaped(x)
    requires y.threads == x.threads[i := Onward(x.threads[i], a, b)] + [Cons(c, [])]
    requires Continues(x.threads[i][0], a, b, c)
    requires ShellsMove(x.node.shells, y.node.shells, x.threads[i][0], a, b, c, id)
    requires ExecsMove(x.execs, y.execs, x.threads[i][0], a, b, id)
    ensures Shaped(y)
    ensures ShellsFree(x, id) && !ShellCrosses(x, Run(i, ok), id) ==> ShellsFree(y, id)
    ensures ExecsFree(x, id) && !ExecCrosses(x, Run(i, ok), id) ==> ExecsFree(y, id)
  {
    hide Creates, Continues, CreatesLast, Onward, ShellDue, ExecDue;
    var list := x.threads[i];
    OnwardShaped(list, a, b, c);
    NewThreadIsNoGap(c, id, x, y, list[0], a, b);
    if ShellsFree(x, id) && !ShellCrosses(x, Run(i, ok), id) {
      forall j | 0 <= j < |y.threads| && InShellGap(y.threads[j], id) ensures id !in y.node.shells {
        if j == i {
          OnwardShellGap(list, a, b, c, id, x.node.shells, y.node.shells);
        }
      }
    }
    if ExecsFree(x, id) && !ExecCrosses(x, Run(i, ok), id) {
      forall j | 0 <= j < |y.threads| && InExecGap(y.threads[j], id) ensures id !in y.execs {
        if j == i {
          OnwardExecGap(list, a, b, id, x.execs, y.execs);
        }
      }
    }
  }

  lemma NewThreadIsNoGap(c: Work, id: string, x: World, y: World, w: Work, a: Work, b: Work)
    requires Continues(w, a, b, c)
    ensures !InShellGap(Cons(c, []), id) && !InExecGap(Cons(c, []), id)
  {
  }

  lemma StepFree(x: World, i: nat, ok: bool, id: string)
    requires i < |x.threads| && x.threads[i] != [] && Shaped(x)
    ensures var y := Step(x, i, ok);
      && Shaped(y)
      && (ShellsFree(x, id) && !ShellCrosses(x, Run(i, ok), id) ==> ShellsFree(y, id))
      && (ExecsFree(x, id) && !ExecCrosses(x, Run(i, ok), id) ==> ExecsFree(y, id))
  {
    hide Creates, Continues, CreatesLast, ShellDue, ExecDue, Shaped, ShellsFree, ExecsFree, ShellCrosses, ExecCrosses,
         ShellsMove, ExecsMove, NodeShells.Do, ExecSessions.Do, Handoff.Do, FromNode, FromExec, FromHand, Cons;
    match x.threads[i][0]
    case Node(n) =>
      var e := NodeShells.Do(x.node, n, ok);
      NodeMoves(x.node, n, ok, x.execs, id);
      AdvanceFree(x, Step(x, i, ok), i, ok, FromNode(e.next), FromNode(e.last), Idle, id);
    case Exec(n) =>
      var e := ExecSessions.Do(x.execs, n, ok);
      ExecMoves(x.execs, n, ok, x.node.shells, id);
      AdvanceFree(x, Step(x, i, ok), i, ok, FromExec(e.next), FromExec(e.last), FromExec(e.spawn), id);
    case Hand(h) =>
      var e := Handoff.Do(x.detached, x.node.shells, x.execs, h, x.next);
      HandMoves(x.detached, h, x.next, x.node.shells, x.execs, id);
      AdvanceFree(x, Step(x, i, ok), i, ok, FromHand(e.next), FromHand(e.last), FromHand(e.spawn), id);
    case Idle =>
      IdleMoves(x.node.shells, x.execs, id);
      AdvanceFree(x, Step(x, i, ok), i, ok, Idle, Idle, Idle, id);
  }

  lemma IdleMoves(shells: Registry, execs: Registry, id: string)
    ensures Continues(Idle, Idle, Idle, Idle)
    ensures ShellsMove(shells, shells, Idle, Idle, Idle, Idle, id) && ExecsMove(execs, execs, Idle, Idle, Idle, id)
  {
  }

  lemma OpenFree(x: World, call: Call, id: string)
    requires Shaped(x)
    ensures var y := Act(x, Open(call));
      Shaped(y) && (ShellsFree(x, id) ==> ShellsFree(y, id)) && (ExecsFree(x, id) ==> ExecsFree(y, id))
  {
    BeginIsNoGap(call, x.next, id);
    hide Begin, Creates, InShellGap, InExecGap, CreatesLast;
  }

  lemma BeginIsNoGap(call: Call, number: nat, id: string)
    ensures var list := Begin(call, number);
      CreatesLast(list) && !InShellGap(list, id) && !InExecGap(list, id)
  {
  }

  lemma {:induction false} EveryRunFree(actions: seq<Action>, id: string)
    ensures Shaped(Play(actions))
    ensures (forall k :: 0 <= k < |actions| ==> !ShellCrosses(Play(actions[..k]), actions[k], id)) ==> ShellsFree(Play(actions), id)
    ensures (forall k :: 0 <= k < |actions| ==> !ExecCrosses(Play(actions[..k]), actions[k], id)) ==> ExecsFree(Play(actions), id)
  {
    hide Play, Act, Shaped, ShellsFree, ExecsFree, ShellCrosses, ExecCrosses;
    PlayLast(actions);
    if actions == [] {
      IdleFree(id);
    } else {
      var n := |actions| - 1;
      var before := actions[..n];
      EveryRunFree(before, id);
      assert forall k :: 0 <= k < n ==> before[..k] == actions[..k] && before[k] == actions[k];
      ActFree(Play(before), actions[n], id);
    }
  }

  lemma IdleFree(id: string)
    ensures Shaped(IDLE) && ShellsFree(IDLE, id) && ExecsFree(IDLE, id)
  {
  }

  lemma ActFree(x: World, a: Action, id: string)
    requires Shaped(x)
    ensures var y := Act(x, a);
      && Shaped(y)
      && (ShellsFree(x, id) && !ShellCrosses(x, a, id) ==> ShellsFree(y, id))
      && (ExecsFree(x, id) && !ExecCrosses(x, a, id) ==> ExecsFree(y, id))
  {
    hide Step, Shaped, ShellsFree, ExecsFree, ShellCrosses, ExecCrosses, Begin;
    match a
    case Open(call) => OpenFree(x, call, id);
    case Run(i, ok) =>
      if i < |x.threads| && x.threads[i] != [] {
        StepFree(x, i, ok, id);
      }
  }

  // ---- What is never lost ----

  /** Every registration over a pod's entry was crossed: some registration of its id fell between another's release and registration. */
  lemma OverwriteIsOverlap(actions: seq<Action>, k: nat, s: Session)
    requires k < |actions| && Overwrites(Play(actions[..k]), actions[k], s)
    ensures exists m :: 0 <= m < k && ShellCrosses(Play(actions[..m]), actions[m], s.id)
  {
    hide Play, ShellCrosses;
    var before := actions[..k];
    EveryRunFree(before, s.id);
    if forall m :: 0 <= m < k ==> !ShellCrosses(Play(actions[..m]), actions[m], s.id) {
      assert forall m :: 0 <= m < k ==> before[..m] == actions[..m] && before[m] == actions[m];
      RegistersInGap(Play(before), actions[k], s);
    }
  }

  lemma RegistersInGap(x: World, a: Action, s: Session)
    requires Shaped(x) && Overwrites(x, a, s)
    ensures !ShellsFree(x, s.id)
  {
    assert CreatesLast(x.threads[a.thread]);
    assert Creates(x.threads[a.thread][0]);
    assert InShellGap(x.threads[a.thread], s.id);
  }

  /** A pod is never orphaned while no registration of its id crosses another's gap. */
  lemma UncrossedPodIsKept(actions: seq<Action>, s: Session)
    requires forall k :: 0 <= k < |actions| ==> !ShellCrosses(Play(actions[..k]), actions[k], s.id)
    ensures !Orphaned(Play(actions), s)
  {
    hide Play, Orphaned, Overwrites, ShellCrosses;
    LostIffOverwritten(actions, s);
    if k :| 0 <= k < |actions| && Overwrites(Play(actions[..k]), actions[k], s) {
      OverwriteIsOverlap(actions, k, s);
    }
  }

  /**
   * Once every thread is done, a pod was delete-requested exactly once, unless its
   * session is still registered with the name: whoever closed it, whatever failed,
   * and whichever timers fired, as long as no registration of its id crossed another's gap.
   */
  lemma QuietPods(actions: seq<Action>, s: Session)
    requires Quiet(Play(actions)) && NodeShells.PodCreated(s) in Play(actions).pods
    requires forall k :: 0 <= k < |actions| ==> !ShellCrosses(Play(actions[..k]), actions[k], s.id)
    ensures var x := Play(actions);
      x.pods[NodeShells.PodDeleted(s)] == if Has(x.node.shells, s) && s in x.node.named then 0 else 1
  {
    hide Play, HowMany, ShellCrosses;
    var x := Play(actions);
    PodHasOneHolder(actions, s);
    UncrossedPodIsKept(actions, s);
    QuietCounts(x.threads, Checking, s);
    QuietCounts(x.threads, Deleting, s);
    QuietCounts(x.threads, Dropping, s);
  }

  lemma ExecOverwriteIsOverlap(actions: seq<Action>, k: nat, s: Session)
    requires k < |actions| && ExecOverwrites(Play(actions[..k]), actions[k], s)
    ensures exists m :: 0 <= m < k && ExecCrosses(Play(actions[..m]), actions[m], s.id)
  {
    hide Play, ExecCrosses;
    var before := actions[..k];
    EveryRunFree(before, s.id);
    if forall m :: 0 <= m < k ==> !ExecCrosses(Play(actions[..m]), actions[m], s.id) {
      assert forall m :: 0 <= m < k ==> before[..m] == actions[..m] && before[m] == actions[m];
      ExecRegistersInGap(Play(before), actions[k], s);
    }
  }

  lemma ExecRegistersInGap(x: World, a: Action, s: Session)
    requires Shaped(x) && ExecOverwrites(x, a, s)
    ensures !ExecsFree(x, s.id)
  {
    assert CreatesLast(x.threads[a.thread]);
    assert Creates(x.threads[a.thread][0]);
    assert InExecGap(x.threads[a.thread], s.id);
  }

  lemma UncrossedExecIsKept(actions: seq<Action>, s: Session)
    requires forall k :: 0 <= k < |actions| ==> !ExecCrosses(Play(actions[..k]), actions[k], s.id)
    ensures !Stranded(Play(actions), s)
  {
    hide Play, Stranded, ExecOverwrites, ExecCrosses;
    StrandedIffOverwritten(actions, s);
    if k :| 0 <= k < |actions| && ExecOverwrites(Play(actions[..k]), actions[k], s) {
      ExecOverwriteIsOverlap(actions, k, s);
    }
  }

  /** And once every thread is done, an exec session is registered or was torn down exactly once. */
  lemma QuietExecs(actions: seq<Action>, s: Session)
    requires Quiet(Play(actions)) && ExecSessions.Opened(s) in Play(actions).ends
    requires forall k :: 0 <= k < |actions| ==> !ExecCrosses(Play(actions[..k]), actions[k], s.id)
    ensures Play(actions).ends[ExecSessions.TornDown(s)] == if Has(Play(actions).execs, s) then 0 else 1
  {
    hide Play, HowMany, ExecCrosses;
    ExecTornDownOnce(actions, s);
    UncrossedExecIsKept(actions, s);
    QuietCounts(Play(actions).threads, Tearing, s);
  }
}
