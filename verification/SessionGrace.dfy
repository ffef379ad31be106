// internal/services/execHandoffServices.go: what a grace timer that fired leaves of
// its session, whatever the other threads do meanwhile.

module SessionGrace {
  import opened Ownership
  import opened Sessions
  import opened SessionRuns
  import opened SessionGaps
  import NodeShells
  import ExecSessions
  import Handoff

  // ---- What stays as it is ----

  /** The one other session that could carry the same number. */
  function Flip(s: Session): Session { s.(node := !s.node) }

  /** No creator is going to register a node shell for `s`. */
  predicate Past(x: World, s: Session) { s.number < x.next && HowMany(x.threads, Early, s) == 0 }

  /** No thread is going to open an exec session for `s`, and none is registered. */
  predicate NoMore(x: World, s: Session) {
    Past(x, s) && !Has(x.node.shells, s) && HowMany(x.threads, Starting, s) == 0 && !Has(x.execs, s)
  }

  lemma NextGrows(x: World, a: Action)
    ensures x.next <= Act(x, a).next
  {
    hide NodeShells.Do, ExecSessions.Do, Handoff.Do, FromNode, FromExec, FromHand;
  }

  lemma NodeEarly(t: NodeShells.Tables, w: NodeShells.Work, ok: bool, s: Session)
    ensures var e := NodeShells.Do(t, w, ok);
      NodeShells.Moves(Early, w, e, s) <= 0 && (!Has(t.shells, s) ==> NodeShells.Moves(Starting, w, e, s) <= 0)
  {
  }

  lemma ExecStarts(t: Registry, w: ExecSessions.Work, ok: bool, s: Session)
    ensures var e := ExecSessions.Do(t, w, ok);
      && ExecSessions.Moves(Starting, w, e, s) <= 0
      && (Has(e.t, s) && !Has(t, s) ==> ExecSessions.RoleOf(w, s) == Starting)
  {
  }

  lemma NodeStepStays(x: World, i: nat, n: NodeShells.Work, ok: bool, s: Session)
    requires At(x, i, Node(n)) && Past(x, s)
    ensures var y := NodeStep(x, i, n, ok);
      && HowMany(y.threads, Early, s) == 0
      && (!Has(x.node.shells, s) ==> !Has(y.node.shells, s) && HowMany(y.threads, Starting, s) <= HowMany(x.threads, Starting, s))
      && y.execs == x.execs
  {
    hide HowMany, NodeShells.Do, NodeShells.RoleOf, NodeShells.Moves, FromNode, Advance;
    NodeStepRoles(x, i, n, ok, Early, s);
    NodeStepRoles(x, i, n, ok, Starting, s);
    NodeStepTables(x, i, n, ok, s);
    NodeEarly(x.node, n, ok, s);
    NodeShells.OneCreator(x.node, n, ok, s);
  }

  lemma ExecStepStays(x: World, i: nat, n: ExecSessions.Work, ok: bool, s: Session)
    requires At(x, i, Exec(n)) && Past(x, s)
    ensures var y := ExecStep(x, i, n, ok);
      && HowMany(y.threads, Early, s) == 0 && y.node == x.node
      && HowMany(y.threads, Starting, s) <= HowMany(x.threads, Starting, s)
      && (HowMany(x.threads, Starting, s) == 0 && !Has(x.execs, s) ==> !Has(y.execs, s))
  {
    hide HowMany, ExecSessions.Do, ExecSessions.RoleOf, ExecSessions.Moves, FromExec, Advance;
    ExecStepRoles(x, i, n, ok, Early, s);
    ExecStepRoles(x, i, n, ok, Starting, s);
    ExecStepTables(x, i, n, ok);
    ExecSessions.NoPodRoles(x.execs, n, ok, s);
    ExecStarts(x.execs, n, ok, s);
  }

  lemma HandStepStays(x: World, i: nat, h: Handoff.Work, s: Session)
    requires At(x, i, Hand(h))
    ensures var y := HandStep(x, i, h);
      && HowMany(y.threads, Early, s) == HowMany(x.threads, Early, s) && HowMany(y.threads, Starting, s) == HowMany(x.threads, Starting, s)
      && y.node == x.node && y.execs == x.execs
  {
    hide HowMany, Handoff.Do, FromHand, Advance;
    HandStepRoles(x, i, h, Early, s);
    HandStepRoles(x, i, h, Starting, s);
    HandStepTables(x, i, h);
  }

  lemma OpenStays(x: World, call: Call, s: Session)
    requires s.number < x.next
    ensures var y := Act(x, Open(call));
      && HowMany(y.threads, Early, s) == HowMany(x.threads, Early, s) && HowMany(y.threads, Starting, s) == HowMany(x.threads, Starting, s)
      && y.node == x.node && y.execs == x.execs
  {
    hide HowMany, Begin, InList;
    var list := Begin(call, x.next);
    HowManyGrows(x.threads, list, Early, s);
    HowManyGrows(x.threads, list, Starting, s);
    BeginRoles(call, x.next, Early, s);
    BeginRoles(call, x.next, Starting, s);
  }

  lemma IdleStays(x: World, i: nat, s: Session)
    requires At(x, i, Idle)
    ensures var y := Advance(x, i, Idle, Idle, Idle);
      && HowMany(y.threads, Early, s) == HowMany(x.threads, Early, s) && HowMany(y.threads, Starting, s) == HowMany(x.threads, Starting, s)
      && y.node == x.node && y.execs == x.execs
  {
    IdleStepRoles(x, i, Early, s);
    IdleStepRoles(x, i, Starting, s);
  }

  /** A creator past its registration never registers again; without a shell entry it does not get to open an exec session. */
  lemma ActStays(x: World, a: Action, s: Session)
    requires Past(x, s)
    ensures var y := Act(x, a);
      && Past(y, s) && (!Has(x.node.shells, s) ==> !Has(y.node.shells, s)) && (NoMore(x, s) ==> NoMore(y, s))
  {
    hide HowMany, NodeStep, ExecStep, HandStep, Advance, Begin;
    NextGrows(x, a);
    match a
    case Open(call) => OpenStays(x, call, s);
    case Run(i, ok) =>
      if i < |x.threads| && x.threads[i] != [] {
        match x.threads[i][0]
        case Node(n) => NodeStepStays(x, i, n, ok, s);
        case Exec(e) => ExecStepStays(x, i, e, ok, s);
        case Hand(h) => HandStepStays(x, i, h, s);
        case Idle => IdleStays(x, i, s);
      }
  }

  lemma {:induction false} RunStays(actions: seq<Action>, more: seq<Action>, s: Session)
    requires Past(Play(actions), s)
    ensures Past(Play(actions + more), s)
    ensures !Has(Play(actions).node.shells, s) ==> !Has(Play(actions + more).node.shells, s)
    ensures NoMore(Play(actions), s) ==> NoMore(Play(actions + more), s)
    decreases |more|
  {
    hide Play, Act, Past, NoMore;
    PlayLast(actions + more);
    if more == [] {
      assert actions + more == actions;
    } else {
      var n := |more| - 1;
      RunStays(actions, more[..n], s);
      assert (actions + more)[..|actions| + n] == actions + more[..n];
      ActStays(Play(actions + more[..n]), more[n], s);
    }
  }

  // ---- One number, one session ----

  predicate OneKind(x: World, s: Session) { Unused(x, s) || Unused(x, Flip(s)) }

  lemma StepUnused(x: World, i: nat, ok: bool, s: Session)
    requires i < |x.threads| && x.threads[i] != [] && Keyed(x) && Keeps(x, s) && Unused(x, s)
    ensures Unused(Step(x, i, ok), s)
  {
    hide Unused, Keyed, NodeStep, ExecStep, HandStep, Advance, PodKeeps, ExecKeeps, EndKeeps;
    match x.threads[i][0]
    case Node(n) => assert KeyedById(x.node.shells) by { KeyedShells(x); } NodeStepUnused(x, i, n, ok, s);
    case Exec(e) => ExecStepUnused(x, i, e, ok, s);
    case Hand(h) => HandStepUnused(x, i, h, s);
    case Idle => IdleUnused(x, i, s);
  }

  lemma KeyedShells(x: World)
    requires Keyed(x)
    ensures KeyedById(x.node.shells) && KeyedById(x.execs)
  {
  }

  lemma IdleUnused(x: World, i: nat, s: Session)
    requires At(x, i, Idle) && Unused(x, s)
    ensures Unused(Advance(x, i, Idle, Idle, Idle), s)
  {
    hide HowMany;
    forall r: Role | r != NoRole ensures HowMany(Advance(x, i, Idle, Idle, Idle).threads, r, s) == HowMany(x.threads, r, s) {
      IdleStepRoles(x, i, r, s);
    }
  }

  /** A new call makes one session of its number. */
  lemma OpenUnused(x: World, call: Call, s: Session)
    requires Unused(x, s) && InList(Begin(call, x.next), Early, s) == InList(Begin(call, x.next), Starting, s) == 0
    ensures Unused(Act(x, Open(call)), s)
  {
    hide HowMany, Begin, InList;
    var list := Begin(call, x.next);
    forall r: Role | r != NoRole
      ensures HowMany(x.threads + [list], r, s) == HowMany(x.threads, r, s) + InList(list, r, s)
      ensures r != Early && r != Starting ==> InList(list, r, s) == 0
    {
      HowManyGrows(x.threads, list, r, s);
      BeginRoles(call, x.next, r, s);
    }
  }

  lemma BeginOneKind(call: Call, number: nat, s: Session)
    ensures (InList(Begin(call, number), Early, s) == InList(Begin(call, number), Starting, s) == 0)
         || (InList(Begin(call, number), Early, Flip(s)) == InList(Begin(call, number), Starting, Flip(s)) == 0)
  {
    hide InList;
    var list := Begin(call, number);
    var first, second := list[0], if |list| > 1 then list[1] else Idle;
    assert list == [first] || list == [first, second];
    ShortList(first, second, Early, s);
    ShortList(first, second, Starting, s);
    ShortList(first, second, Early, Flip(s));
    ShortList(first, second, Starting, Flip(s));
  }

  /** What is unused and will not be given out stays so. */
  lemma UnusedStays(x: World, a: Action, s: Session)
    requires Inv(x) && Unused(x, s) && s.number < x.next
    ensures Unused(Act(x, a), s)
  {
    hide Unused, Step, Begin, Keyed, Keeps, InList;
    match a
    case Open(call) =>
      BeginRoles(call, x.next, Early, s);
      BeginRoles(call, x.next, Starting, s);
      OpenUnused(x, call, s);
    case Run(i, ok) =>
      if i < |x.threads| && x.threads[i] != [] {
        assert Keeps(x, s);
        StepUnused(x, i, ok, s);
      }
  }

  lemma OneKindStays(x: World, a: Action, s: Session)
    requires Inv(x) && OneKind(x, s)
    ensures OneKind(Act(x, a), s)
  {
    hide Unused, Step, Begin, Keyed, Keeps, InList;
    assert Keeps(x, s) && Keeps(x, Flip(s));
    match a
    case Open(call) =>
      if s.number < x.next {
        if Unused(x, s) {
          UnusedStays(x, a, s);
        } else {
          UnusedStays(x, a, Flip(s));
        }
      } else {
        BeginOneKind(call, x.next, s);
        if InList(Begin(call, x.next), Early, s) == InList(Begin(call, x.next), Starting, s) == 0 {
          OpenUnused(x, call, s);
        } else {
          OpenUnused(x, call, Flip(s));
        }
      }
    case Run(i, ok) =>
      if i < |x.threads| && x.threads[i] != [] {
        if Unused(x, s) {
          StepUnused(x, i, ok, s);
        } else {
          StepUnused(x, i, ok, Flip(s));
        }
      }
  }

  // ---- The timer's thread ----

  /** An item of the first half of what timer `k` does once it fired, and of the second. */
  predicate ShellHalf(w: Work, k: Ticket) {
    w == Hand(Handoff.ShellOf(k)) || (w.Node? && w.n.TakeOwn? && w.n.who == Timer(k))
  }

  predicate ExecHalf(w: Work, k: Ticket) {
    w == Hand(Handoff.ExecOf(k)) || (w.Exec? && w.x.TakeOwn? && w.x.who == Timer(k))
  }

  predicate Timed(w: Work) {
    (w.Hand? && w.h.ExecOf?) || (w.Exec? && w.x.TakeOwn? && w.x.who.Timer?)
  }

  /** An item that some creator of an exec session still has in front of it. */
  predicate Starts(w: Work) {
    match w
    case Node(n) => n.WaitPod?
    case Exec(e) => e.FindContainer? || e.Start? || e.NewExecutor? || e.Register?
    case _ => false
  }

  predicate TearsDown(w: Work) { w.Exec? && w.x.TearDown? }

  /** Never left lying in a list: it goes on as the exec session's own start. */
  predicate Raw(w: Work) { w.Node? && w.n.StartExec? }

  predicate Fires(w: Work) { w.Hand? && w.h.Fire? }

  predicate InPlace(list: seq<Work>, j: nat)
    requires j < |list|
  {
    && (Fires(list[j]) ==> |list| == 1)
    && (Timed(list[j]) ==> j == |list| - 1)
    && (Starts(list[j]) && j > 0 ==> j == 1 && TearsDown(list[0]))
    && !Raw(list[j])
  }

  /** The callback is a thread of its own, its second half comes last, and a creator waits at most for a teardown. */
  predicate Shape(list: seq<Work>) { forall j :: 0 <= j < |list| ==> InPlace(list, j) }

  /** How the items that continue the thread of `w` fit in. */
  predicate Fits(w: Work, a: Work, b: Work, c: Work) {
    && !Fires(a) && !Fires(b)
    && (Timed(a) ==> Timed(w) && b == Idle) && (Timed(b) ==> Fires(w)) && !Timed(c)
    && (Starts(a) ==> Creates(w) && b == Idle) && (Starts(b) ==> Creates(w) && TearsDown(a)) && !Starts(c)
    && (TearsDown(w) ==> a == b == Idle)
    && !Raw(a) && !Raw(b) && !Raw(c)
  }

  lemma NodeFits(t: NodeShells.Tables, n: NodeShells.Work, ok: bool)
    ensures var e := NodeShells.Do(t, n, ok); Fits(Node(n), FromNode(e.next), FromNode(e.last), Idle)
  {
  }

  lemma ExecFits(t: Registry, n: ExecSessions.Work, ok: bool)
    ensures var e := ExecSessions.Do(t, n, ok); Fits(Exec(n), FromExec(e.next), FromExec(e.last), FromExec(e.spawn))
  {
  }

  lemma HandFits(t: map<string, Ticket>, h: Handoff.Work, timer: nat, shells: Registry, execs: Registry)
    ensures var e := Handoff.Do(t, shells, execs, h, timer); Fits(Hand(h), FromHand(e.next), FromHand(e.last), FromHand(e.spawn))
  {
  }

  lemma OnwardShape(list: seq<Work>, a: Work, b: Work, c: Work)
    requires list != [] && Shape(list) && Fits(list[0], a, b, c) && (Creates(list[0]) ==> list[1..] == [])
    ensures Shape(Onward(list, a, b)) && Shape(Cons(c, []))
  {
    hide Creates, Starts, Timed, TearsDown, Fires, InPlace, Shape, Onward, Fits;
    var w, rest, next := list[0], list[1..], Onward(list, a, b);
    ShapeAt(list, 0);
    var m := |next| - |rest|;
    OnwardIs(list, a, b);
    forall j | 0 <= j < |next| ensures InPlace(next, j) {
      if j < m {
        FrontInPlace(list, a, b, c, j);
      } else {
        ShapeAt(list, j - m + 1);
        RestInPlace(list, a, b, c, j);
      }
    }
    ShapeIs(next);
    SingleInPlace(w, a, b, c);
  }

  lemma ShapeAt(list: seq<Work>, j: nat)
    requires Shape(list) && j < |list|
    ensures InPlace(list, j)
  {
  }

  lemma ShapeIs(list: seq<Work>)
    requires forall j :: 0 <= j < |list| ==> InPlace(list, j)
    ensures Shape(list)
  {
  }

  lemma OnwardIs(list: seq<Work>, a: Work, b: Work)
    requires list != []
    ensures var next, rest := Onward(list, a, b), list[1..];
      var m := |next| - |rest|;
      && m == One(a != Idle) + One(b != Idle) && (forall j :: m <= j < |next| ==> next[j] == list[j - m + 1])
      && (m == 1 ==> next[0] == if a == Idle then b else a)
      && (m == 2 ==> next[0] == a && next[1] == b)
  {
    hide Cons;
    var rest, inner := list[1..], Cons(b, list[1..]);
    ConsIs(b, rest);
    ConsIs(a, inner);
    assert forall j :: 0 <= j < |rest| ==> rest[j] == list[j + 1];
  }

  lemma ConsIs(w: Work, rest: seq<Work>)
    ensures w == Idle ==> Cons(w, rest) == rest
    ensures w != Idle ==> |Cons(w, rest)| == |rest| + 1 && Cons(w, rest)[0] == w
    ensures w != Idle ==> forall j :: 0 < j < |rest| + 1 ==> Cons(w, rest)[j] == rest[j - 1]
  {
  }

  lemma FrontInPlace(list: seq<Work>, a: Work, b: Work, c: Work, j: nat)
    requires list != [] && Fits(list[0], a, b, c) && (Creates(list[0]) ==> list[1..] == []) && InPlace(list, 0)
    requires j < |Onward(list, a, b)| - |list[1..]|
    ensures InPlace(Onward(list, a, b), j)
  {
    hide Creates, Starts, TearsDown, Onward;
    OnwardIs(list, a, b);
  }

  lemma RestInPlace(list: seq<Work>, a: Work, b: Work, c: Work, j: nat)
    requires list != [] && Fits(list[0], a, b, c) && |Onward(list, a, b)| - |list[1..]| <= j < |Onward(list, a, b)|
    requires InPlace(list, j - (|Onward(list, a, b)| - |list[1..]|) + 1)
    ensures InPlace(Onward(list, a, b), j)
  {
    hide Creates, Starts, Timed, TearsDown, Fires, Onward;
    OnwardIs(list, a, b);
  }

  lemma SingleInPlace(w: Work, a: Work, b: Work, c: Work)
    requires Fits(w, a, b, c)
    ensures Shape(Cons(c, []))
  {
  }

  lemma BeginShape(call: Call, number: nat)
    ensures Shape(Begin(call, number))
  {
  }

  // ---- What the timers' items know ----

  /** The session a ticket was made for, of either kind. */
  function Owner(k: Ticket, node: bool): Session { Session(k.id, k.history, node) }

  predicate PastBoth(x: World, id: string, history: nat) {
    Past(x, Session(id, history, true)) && Past(x, Session(id, history, false))
  }

  predicate ItemKnows(x: World, w: Work) {
    match w
    case Hand(Arm(id, history)) => PastBoth(x, id, history)
    case Node(TakeOwn(t, Timer(_))) => t.number < x.next && Unused(x, Flip(t))
    case Exec(TakeOwn(t, Timer(_))) => t.number < x.next && Unused(x, Flip(t))
    case _ => true
  }

  predicate HasShellHalf(list: seq<Work>, k: Ticket) { exists j :: 0 <= j < |list| && ShellHalf(list[j], k) }

  predicate HasExecHalf(list: seq<Work>, k: Ticket) { exists j :: 0 <= j < |list| && ExecHalf(list[j], k) }

  predicate NoShell(x: World, k: Ticket) { !Has(x.node.shells, Owner(k, true)) && !Has(x.node.shells, Owner(k, false)) }

  /** With only the second half left, the first has done its work. */
  predicate HalfDone(x: World, list: seq<Work>, k: Ticket) {
    HasExecHalf(list, k) && !HasShellHalf(list, k) ==> NoShell(x, k)
  }

  ghost predicate Graced(x: World) {
    && (forall s: Session :: OneKind(x, s))
    && (forall i, j :: 0 <= i < |x.threads| && 0 <= j < |x.threads[i]| ==> ItemKnows(x, x.threads[i][j]))
    && (forall i :: 0 <= i < |x.threads| ==> Shape(x.threads[i]))
    && (forall i, k: Ticket :: 0 <= i < |x.threads| ==> HalfDone(x, x.threads[i], k))
    && (forall k: Ticket :: Handoff.Armed(k) in x.timers ==> PastBoth(x, k.id, k.history))
  }

  lemma PastBothStays(x: World, a: Action, id: string, history: nat)
    requires PastBoth(x, id, history)
    ensures PastBoth(Act(x, a), id, history)
  {
    hide Act, Past;
    ActStays(x, a, Session(id, history, true));
    ActStays(x, a, Session(id, history, false));
  }

  lemma ItemKnowsStays(x: World, a: Action, w: Work)
    requires Inv(x) && ItemKnows(x, w)
    ensures ItemKnows(Act(x, a), w)
  {
    hide Inv, Act, PastBoth, Unused;
    NextGrows(x, a);
    match w
    case Hand(Arm(id, history)) => PastBothStays(x, a, id, history);
    case Node(TakeOwn(t, Timer(_))) => UnusedStays(x, a, Flip(t));
    case Exec(TakeOwn(t, Timer(_))) => UnusedStays(x, a, Flip(t));
    case _ =>
  }

  /** A session found in a registry is past its registration, and the only one of its number. */
  lemma FoundKnown(x: World, t: Session)
    requires Inv(x) && OneKind(x, t) && (Has(x.execs, t) || Has(x.node.shells, t))
    ensures t.number < x.next && Unused(x, Flip(t)) && PastBoth(x, t.id, t.number)
  {
    hide HowMany;
    assert Keeps(x, t);
  }

  lemma HandKnows(x: World, h: Handoff.Work)
    requires Inv(x) && forall s: Session :: OneKind(x, s)
    ensures var e := Handoff.Do(x.detached, x.node.shells, x.execs, h, x.next);
      ItemKnows(x, FromHand(e.next)) && ItemKnows(x, FromHand(e.last)) && ItemKnows(x, FromHand(e.spawn))
  {
    hide Inv, OneKind, Unused, PastBoth;
    match h
    case FindExec(id, _) => HeldKnown(x, id);
    case FindShell(id, _) => HeldKnown(x, id);
    case ShellOf(k) => HeldKnown(x, k.id);
    case ExecOf(k) => HeldKnown(x, k.id);
    case _ =>
  }

  lemma HeldKnown(x: World, id: string)
    requires Inv(x) && forall s: Session :: OneKind(x, s)
    ensures id in x.execs ==> var t := x.execs[id]; t.number < x.next && Unused(x, Flip(t)) && PastBoth(x, id, t.number)
    ensures id in x.node.shells ==> var t := x.node.shells[id]; t.number < x.next && Unused(x, Flip(t)) && PastBoth(x, id, t.number)
  {
    hide Keeps, Unused, OneKind, PastBoth, Items, TicketKeeps, Logged;
    if id in x.execs {
      FoundKnown(x, x.execs[id]);
    }
    if id in x.node.shells {
      FoundKnown(x, x.node.shells[id]);
    }
  }

  lemma NodeKnows(x: World, t: NodeShells.Tables, n: NodeShells.Work, ok: bool)
    ensures var e := NodeShells.Do(t, n, ok); ItemKnows(x, FromNode(e.next)) && ItemKnows(x, FromNode(e.last))
  {
  }

  lemma ExecKnows(x: World, t: Registry, n: ExecSessions.Work, ok: bool)
    ensures var e := ExecSessions.Do(t, n, ok);
      ItemKnows(x, FromExec(e.next)) && ItemKnows(x, FromExec(e.last)) && ItemKnows(x, FromExec(e.spawn))
  {
  }

  lemma BeginKnows(x: World, call: Call, number: nat)
    ensures forall j :: 0 <= j < |Begin(call, number)| ==> ItemKnows(x, Begin(call, number)[j])
    ensures forall k: Ticket :: !HasExecHalf(Begin(call, number), k)
  {
  }

  /** The halves of timer `k` in the items that continue `w`. */
  predicate Halves(w: Work, a: Work, b: Work, c: Work, k: Ticket) {
    (ExecHalf(a, k) ==> ExecHalf(w, k)) && (ExecHalf(b, k) ==> ShellHalf(a, k)) && !ExecHalf(c, k)
  }

  lemma NodeHalves(t: NodeShells.Tables, n: NodeShells.Work, ok: bool, k: Ticket)
    ensures var e := NodeShells.Do(t, n, ok); Halves(Node(n), FromNode(e.next), FromNode(e.last), Idle, k)
    ensures ShellHalf(Node(n), k) ==>
      !Has(NodeShells.Do(t, n, ok).t.shells, n.s) && (n.s.id in NodeShells.Do(t, n, ok).t.shells ==> NodeShells.Do(t, n, ok).t == t)
  {
  }

  lemma ExecHalves(t: Registry, n: ExecSessions.Work, ok: bool, k: Ticket)
    ensures var e := ExecSessions.Do(t, n, ok); Halves(Exec(n), FromExec(e.next), FromExec(e.last), FromExec(e.spawn), k)
    ensures !ShellHalf(Exec(n), k)
  {
  }

  lemma HandHalves(t: map<string, Ticket>, h: Handoff.Work, timer: nat, shells: Registry, execs: Registry, k: Ticket)
    ensures var e := Handoff.Do(t, shells, execs, h, timer);
      && Halves(Hand(h), FromHand(e.next), FromHand(e.last), FromHand(e.spawn), k)
      && (ShellHalf(Hand(h), k) ==> ShellHalf(FromHand(e.next), k) || (!Has(shells, Owner(k, true)) && !Has(shells, Owner(k, false))))
  {
  }

  lemma HalfOnward(x: World, y: World, list: seq<Work>, a: Work, b: Work, c: Work, k: Ticket)
    requires list != [] && HalfDone(x, list, k) && Halves(list[0], a, b, c, k)
    requires ShellHalf(list[0], k) ==> ShellHalf(a, k) || NoShell(y, k)
    requires HasExecHalf(list, k) && NoShell(x, k) ==> NoShell(y, k)
    ensures HalfDone(y, Onward(list, a, b), k) && HalfDone(y, Cons(c, []), k)
  {
    hide ShellHalf, ExecHalf, NoShell, Onward;
    HalvesOnward(list, a, b, k);
    NoHalfOfIdle(k);
  }

  lemma NoHalfOfIdle(k: Ticket)
    ensures !ShellHalf(Idle, k) && !ExecHalf(Idle, k)
  {
  }

  lemma HalvesOnward(list: seq<Work>, a: Work, b: Work, k: Ticket)
    requires list != []
    ensures HasExecHalf(Onward(list, a, b), k) ==> ExecHalf(a, k) || ExecHalf(b, k) || HasExecHalf(list[1..], k)
    ensures ShellHalf(a, k) || HasShellHalf(list[1..], k) ==> HasShellHalf(Onward(list, a, b), k)
    ensures HasExecHalf(list, k) <==> ExecHalf(list[0], k) || HasExecHalf(list[1..], k)
    ensures HasShellHalf(list, k) <==> ShellHalf(list[0], k) || HasShellHalf(list[1..], k)
  {
    hide ShellHalf, ExecHalf;
    NoHalfOfIdle(k);
    var rest := list[1..];
    HalfOfCons(list[0], rest, k);
    assert [list[0]] + rest == list;
    HalfOfCons(b, rest, k);
    HalfOfCons(a, Cons(b, rest), k);
  }

  lemma HalfOfCons(w: Work, rest: seq<Work>, k: Ticket)
    ensures HasExecHalf(Cons(w, rest), k) <==> ExecHalf(w, k) || HasExecHalf(rest, k)
    ensures HasShellHalf(Cons(w, rest), k) <==> ShellHalf(w, k) || HasShellHalf(rest, k)
    ensures HasExecHalf([w] + rest, k) <==> ExecHalf(w, k) || HasExecHalf(rest, k)
    ensures HasShellHalf([w] + rest, k) <==> ShellHalf(w, k) || HasShellHalf(rest, k)
  {
    hide ShellHalf, ExecHalf;
    NoHalfOfIdle(k);
    var all := [w] + rest;
    assert all[0] == w && forall j :: 0 <= j < |rest| ==> all[j + 1] == rest[j];
    assert forall j :: 0 < j < |all| ==> all[j] == rest[j - 1];
  }

  // ---- Every step ----

  lemma HalfIsPast(x: World, i: nat, k: Ticket)
    requires Inv(x) && Graced(x) && i < |x.threads| && HasExecHalf(x.threads[i], k)
    ensures PastBoth(x, k.id, k.history)
  {
    hide PastBoth, Keeps, OneKind, ItemKnows, Shape, HalfDone, Keyed, Logged, Unused;
    var j :| 0 <= j < |x.threads[i]| && ExecHalf(x.threads[i][j], k);
    assert ItemOk(x.timers, x.threads[i][j]);
    assert TicketKeeps(x, k);
  }

  lemma NoShellStays(x: World, a: Action, k: Ticket)
    requires PastBoth(x, k.id, k.history) && NoShell(x, k)
    ensures NoShell(Act(x, a), k)
  {
    hide Act, Past;
    ActStays(x, a, Owner(k, true));
    ActStays(x, a, Owner(k, false));
  }

  /** The thread of `w` goes on: what its next items need to know. */
  ghost predicate GoesOn(x: World, y: World, w: Work, a: Work, b: Work, c: Work) {
    && Continues(w, a, b, c) && Fits(w, a, b, c)
    && ItemKnows(x, a) && ItemKnows(x, b) && ItemKnows(x, c)
    && (forall k: Ticket :: Halves(w, a, b, c, k) && (ShellHalf(w, k) ==> ShellHalf(a, k) || NoShell(y, k)))
  }

  lemma AdvanceGraced(x: World, i: nat, ok: bool, a: Work, b: Work, c: Work)
    requires Inv(x) && Graced(x) && Shaped(x) && i < |x.threads| && x.threads[i] != []
    requires var y := Step(x, i, ok);
      y.threads == x.threads[i := Onward(x.threads[i], a, b)] + [Cons(c, [])] && GoesOn(x, y, x.threads[i][0], a, b, c)
    ensures var y := Step(x, i, ok);
      && (forall j :: 0 <= j < |y.threads| ==> Shape(y.threads[j]))
      && (forall j, k: Ticket :: 0 <= j < |y.threads| ==> HalfDone(y, y.threads[j], k))
      && (forall j, m :: 0 <= j < |y.threads| && 0 <= m < |y.threads[j]| ==> ItemKnows(y, y.threads[j][m]))
  {
    hide Inv, Step, Creates, Continues, CreatesLast, Onward, Shape, Fits, HalfDone, ItemKnows, Halves, ShellHalf, NoShell, PastBoth, OneKind, HasExecHalf, HasShellHalf, Cons;
    var act, list := Run(i, ok), x.threads[i];
    var y := Act(x, act);
    assert CreatesLast(list);
    OnwardShaped(list, a, b, c);
    OnwardShape(list, a, b, c);
    forall j, k: Ticket | 0 <= j < |y.threads| ensures HalfDone(y, y.threads[j], k) {
      AdvanceHalf(x, act, j, i, a, b, c, k);
    }
    forall j, m | 0 <= j < |y.threads| && 0 <= m < |y.threads[j]| ensures ItemKnows(y, y.threads[j][m]) {
      AdvanceItem(x, act, j, m, i, a, b, c);
    }
  }

  lemma AdvanceHalf(x: World, act: Action, j: nat, i: nat, a: Work, b: Work, c: Work, k: Ticket)
    requires Inv(x) && Graced(x) && i < |x.threads| && x.threads[i] != []
    requires var y := Act(x, act);
      y.threads == x.threads[i := Onward(x.threads[i], a, b)] + [Cons(c, [])] && GoesOn(x, y, x.threads[i][0], a, b, c)
    requires j < |Act(x, act).threads|
    ensures HalfDone(Act(x, act), Act(x, act).threads[j], k)
  {
    hide Inv, Act, Creates, Continues, Onward, Shape, Fits, ItemKnows, Halves, ShellHalf, NoShell, PastBoth, OneKind, HasExecHalf, HasShellHalf, Cons;
    var y := Act(x, act);
    if j < |x.threads| {
      var list := x.threads[j];
      assert HalfDone(x, list, k);
      if HasExecHalf(list, k) {
        HalfIsPast(x, j, k);
        if NoShell(x, k) {
          NoShellStays(x, act, k);
        }
      }
      if j == i {
        HalfOnward(x, y, list, a, b, c, k);
      }
    } else {
      assert Halves(x.threads[i][0], a, b, c, k);
      NewThreadHalf(y, c, x.threads[i][0], a, b, k);
    }
  }

  lemma NewThreadHalf(y: World, c: Work, w: Work, a: Work, b: Work, k: Ticket)
    requires Halves(w, a, b, c, k)
    ensures HalfDone(y, Cons(c, []), k)
  {
  }

  lemma AdvanceItem(x: World, act: Action, j: nat, m: nat, i: nat, a: Work, b: Work, c: Work)
    requires Inv(x) && Graced(x) && i < |x.threads| && x.threads[i] != []
    requires var y := Act(x, act);
      y.threads == x.threads[i := Onward(x.threads[i], a, b)] + [Cons(c, [])] && GoesOn(x, y, x.threads[i][0], a, b, c)
    requires j < |Act(x, act).threads| && m < |Act(x, act).threads[j]|
    ensures ItemKnows(Act(x, act), Act(x, act).threads[j][m])
  {
    hide Inv, Act, Creates, Continues, Onward, Shape, Fits, ItemKnows, Halves, ShellHalf, NoShell, PastBoth, OneKind, HalfDone, Cons;
    var w := Act(x, act).threads[j][m];
    if j == i {
      OnwardHolds(x.threads[i], a, b, m);
      assert forall n :: 0 <= n < |x.threads[i]| ==> ItemKnows(x, x.threads[i][n]);
    } else if j >= |x.threads| {
      SingleHolds(c, m);
    }
    ItemKnowsStays(x, act, w);
  }

  lemma OnwardHolds(list: seq<Work>, a: Work, b: Work, m: nat)
    requires list != [] && m < |Onward(list, a, b)|
    ensures Onward(list, a, b)[m] in [a, b] + list
  {
    OnwardIs(list, a, b);
  }

  lemma SingleHolds(c: Work, m: nat)
    requires m < |Cons(c, [])|
    ensures Cons(c, [])[m] == c
  {
  }

  lemma NodeGoesOn(x: World, i: nat, n: NodeShells.Work, ok: bool)
    requires At(x, i, Node(n)) && Inv(x) && Graced(x)
    ensures var e := NodeShells.Do(x.node, n, ok);
      GoesOn(x, NodeStep(x, i, n, ok), Node(n), FromNode(e.next), FromNode(e.last), Idle)
  {
    hide FromNode, NodeShells.Do, NodeStep, Inv, Continues, Fits, Halves, ItemKnows, Keyed, Has, HalfDone, Shape, OneKind, PastBoth;
    var e, y := NodeShells.Do(x.node, n, ok), NodeStep(x, i, n, ok);
    NodeMoves(x.node, n, ok, x.execs, "");
    NodeFits(x.node, n, ok);
    NodeKnows(x, x.node, n, ok);
    IdleKnows(x);
    forall k: Ticket ensures Halves(Node(n), FromNode(e.next), FromNode(e.last), Idle, k)
                             && (ShellHalf(Node(n), k) ==> NoShell(y, k)) {
      NodeHalves(x.node, n, ok, k);
      if ShellHalf(Node(n), k) {
        assert ItemKnows(x, x.threads[i][0]);
        ShellTaken(x, i, n, ok, k);
      }
    }
  }

  lemma IdleKnows(x: World)
    ensures ItemKnows(x, Idle)
  {
  }

  /** The release for the timer leaves no shell of its history. */
  lemma ShellTaken(x: World, i: nat, n: NodeShells.Work, ok: bool, k: Ticket)
    requires At(x, i, Node(n)) && Inv(x) && ItemKnows(x, Node(n)) && ShellHalf(Node(n), k)
    ensures NoShell(NodeStep(x, i, n, ok), k)
  {
    hide Keeps, TicketKeeps, Logged, HowMany, FromNode;
    var y, t := NodeStep(x, i, n, ok), n.s;
    assert ItemOk(x.timers, x.threads[i][0]);
    NodeStepTables(x, i, n, ok, t);
    assert Owner(k, t.node) == t && Owner(k, !t.node) == Flip(t);
  }

  lemma ExecGoesOn(x: World, i: nat, n: ExecSessions.Work, ok: bool)
    requires At(x, i, Exec(n))
    ensures var e := ExecSessions.Do(x.execs, n, ok);
      GoesOn(x, ExecStep(x, i, n, ok), Exec(n), FromExec(e.next), FromExec(e.last), FromExec(e.spawn))
  {
    hide FromExec, ExecSessions.Do, ExecStep, Continues, Fits, Halves, ItemKnows, ShellHalf;
    var e := ExecSessions.Do(x.execs, n, ok);
    ExecMoves(x.execs, n, ok, x.node.shells, "");
    ExecFits(x.execs, n, ok);
    ExecKnows(x, x.execs, n, ok);
    forall k: Ticket ensures Halves(Exec(n), FromExec(e.next), FromExec(e.last), FromExec(e.spawn), k) && !ShellHalf(Exec(n), k) {
      ExecHalves(x.execs, n, ok, k);
    }
  }

  lemma HandGoesOn(x: World, i: nat, h: Handoff.Work)
    requires At(x, i, Hand(h)) && Inv(x) && Graced(x)
    ensures var e := Handoff.Do(x.detached, x.node.shells, x.execs, h, x.next);
      GoesOn(x, HandStep(x, i, h), Hand(h), FromHand(e.next), FromHand(e.last), FromHand(e.spawn))
  {
    hide FromHand, Handoff.Do, HandStep, Inv, Continues, Fits, Halves, ItemKnows, ShellHalf, Has, HalfDone, Shape, OneKind, PastBoth;
    var e, y := Handoff.Do(x.detached, x.node.shells, x.execs, h, x.next), HandStep(x, i, h);
    HandMoves(x.detached, h, x.next, x.node.shells, x.execs, "");
    HandFits(x.detached, h, x.next, x.node.shells, x.execs);
    HandKnows(x, h);
    HandStepTables(x, i, h);
    forall k: Ticket ensures Halves(Hand(h), FromHand(e.next), FromHand(e.last), FromHand(e.spawn), k)
                             && (ShellHalf(Hand(h), k) ==> ShellHalf(FromHand(e.next), k) || NoShell(y, k)) {
      HandHalves(x.detached, h, x.next, x.node.shells, x.execs, k);
    }
  }

  lemma StepGraced(x: World, i: nat, ok: bool)
    requires Inv(x) && Graced(x) && Shaped(x) && i < |x.threads| && x.threads[i] != []
    ensures Graced(Step(x, i, ok))
  {
    hide Inv, Shaped, Shape, HalfDone, ItemKnows, PastBoth, OneKind, NodeStep, ExecStep, HandStep, GoesOn,
         NodeShells.Do, ExecSessions.Do, Handoff.Do, FromNode, FromExec, FromHand, Cons;
    var y := Act(x, Run(i, ok));
    ThreadsGoOn(x, i, ok);
    forall s: Session ensures OneKind(y, s) {
      OneKindStays(x, Run(i, ok), s);
    }
    forall k: Ticket | Handoff.Armed(k) in y.timers ensures PastBoth(y, k.id, k.history) {
      ArmedIsPast(x, i, ok, k);
      PastBothStays(x, Run(i, ok), k.id, k.history);
    }
  }

  lemma ThreadsGoOn(x: World, i: nat, ok: bool)
    requires Inv(x) && Graced(x) && Shaped(x) && i < |x.threads| && x.threads[i] != []
    ensures var y := Step(x, i, ok);
      && (forall j :: 0 <= j < |y.threads| ==> Shape(y.threads[j]))
      && (forall j, k: Ticket :: 0 <= j < |y.threads| ==> HalfDone(y, y.threads[j], k))
      && (forall j, m :: 0 <= j < |y.threads| && 0 <= m < |y.threads[j]| ==> ItemKnows(y, y.threads[j][m]))
  {
    hide Inv, Graced, Shaped, Shape, HalfDone, ItemKnows, GoesOn,
         NodeShells.Do, ExecSessions.Do, Handoff.Do, FromNode, FromExec, FromHand, Cons;
    match x.threads[i][0]
    case Node(n) =>
      var e := NodeShells.Do(x.node, n, ok);
      NodeGoesOn(x, i, n, ok);
      AdvanceGraced(x, i, ok, FromNode(e.next), FromNode(e.last), Idle);
    case Exec(n) =>
      var e := ExecSessions.Do(x.execs, n, ok);
      ExecGoesOn(x, i, n, ok);
      AdvanceGraced(x, i, ok, FromExec(e.next), FromExec(e.last), FromExec(e.spawn));
    case Hand(h) =>
      var e := Handoff.Do(x.detached, x.node.shells, x.execs, h, x.next);
      HandGoesOn(x, i, h);
      AdvanceGraced(x, i, ok, FromHand(e.next), FromHand(e.last), FromHand(e.spawn));
    case Idle =>
      IdleGoesOn(x, Step(x, i, ok));
      AdvanceGraced(x, i, ok, Idle, Idle, Idle);
  }

  lemma IdleGoesOn(x: World, y: World)
    ensures GoesOn(x, y, Idle, Idle, Idle, Idle)
  {
    IdleKnows(x);
  }

  lemma ArmedIsPast(x: World, i: nat, ok: bool, k: Ticket)
    requires Graced(x) && i < |x.threads| && x.threads[i] != [] && Handoff.Armed(k) in Step(x, i, ok).timers
    ensures PastBoth(x, k.id, k.history)
  {
    hide PastBoth, OneKind, Shape, HalfDone, NodeStep, ExecStep, HandStep, Advance, Handoff.Do;
    assert ItemKnows(x, x.threads[i][0]);
    match x.threads[i][0]
    case Node(n) => NodeStepTables(x, i, n, ok, Owner(k, true));
    case Exec(n) => ExecStepTables(x, i, n, ok);
    case Hand(h) =>
      HandStepTables(x, i, h);
      ArmsItsOwn(x.detached, x.node.shells, x.execs, h, x.next, k);
    case Idle => IdleTables(x, i);
  }

  lemma ArmsItsOwn(t: map<string, Ticket>, shells: Registry, execs: Registry, h: Handoff.Work, timer: nat, k: Ticket)
    ensures var e := Handoff.Do(t, shells, execs, h, timer);
      e.event == Handoff.Armed(k) || e.other == Handoff.Armed(k) ==> h == Handoff.Arm(k.id, k.history)
  {
  }

  lemma OpenGraced(x: World, call: Call)
    requires Inv(x) && Graced(x)
    ensures Graced(Act(x, Open(call)))
  {
    hide Inv, Shape, HalfDone, ItemKnows, PastBoth, OneKind, Begin;
    var y, list := Act(x, Open(call)), Begin(call, x.next);
    BeginShape(call, x.next);
    BeginKnows(y, call, x.next);
    forall s: Session ensures OneKind(y, s) {
      OneKindStays(x, Open(call), s);
    }
    forall j, m | 0 <= j < |y.threads| && 0 <= m < |y.threads[j]| ensures ItemKnows(y, y.threads[j][m]) {
      if j < |x.threads| {
        ItemKnowsStays(x, Open(call), x.threads[j][m]);
      }
    }
    forall j, k: Ticket | 0 <= j < |y.threads| ensures HalfDone(y, y.threads[j], k) {
      OpenHalf(x, call, j, k);
    }
    forall k: Ticket | Handoff.Armed(k) in y.timers ensures PastBoth(y, k.id, k.history) {
      PastBothStays(x, Open(call), k.id, k.history);
    }
  }

  lemma OpenHalf(x: World, call: Call, j: nat, k: Ticket)
    requires j <= |x.threads| && (j < |x.threads| ==> HalfDone(x, x.threads[j], k))
    ensures HalfDone(Act(x, Open(call)), Act(x, Open(call)).threads[j], k)
  {
    hide Begin, HasExecHalf, HasShellHalf;
    BeginKnows(x, call, x.next);
  }

  lemma {:induction false} EveryRunGraced(actions: seq<Action>)
    ensures Graced(Play(actions))
  {
    hide Play, Graced, Inv, Step, Begin;
    PlayLast(actions);
    if actions == [] {
      IdleGraced();
    } else {
      var n := |actions| - 1;
      var before := actions[..n];
      EveryRunGraced(before);
      EveryRun(before);
      EveryRunFree(before, "");
      match actions[n]
      case Open(call) => OpenGraced(Play(before), call);
      case Run(i, ok) =>
        if i < |Play(before).threads| && Play(before).threads[i] != [] {
          StepGraced(Play(before), i, ok);
        }
    }
  }

  lemma IdleGraced()
    ensures Graced(IDLE)
  {
  }

  // ---- What is left of the session ----

  /**
   * When the timer that fired comes to the second half of its work, no node shell of its
   * history is registered, and none is in any continuation, whatever the other threads do.
   */
  lemma GraceLeavesNoShell(actions: seq<Action>, more: seq<Action>, i: nat, w: Work, k: Ticket, s: Session)
    requires At(Play(actions), i, w) && ExecHalf(w, k) && s.id == k.id && s.number == k.history
    ensures !Has(Play(actions).node.shells, s) && !Has(Play(actions + more).node.shells, s)
  {
    hide Play, Inv, Graced, ExecHalf, Past;
    EveryRun(actions);
    EveryRunGraced(actions);
    AtHalf(Play(actions), i, w, k);
    assert s == Owner(k, s.node);
    RunStays(actions, more, s);
  }

  lemma AtHalf(x: World, i: nat, w: Work, k: Ticket)
    requires Inv(x) && Graced(x) && At(x, i, w) && ExecHalf(w, k)
    ensures NoShell(x, k) && PastBoth(x, k.id, k.history)
  {
    hide Inv, PastBoth, NoShell, OneKind, ItemKnows;
    var list := x.threads[i];
    assert HalfDone(x, list, k) && Shape(list);
    assert InPlace(list, 0);
    assert list[0] == w && HasExecHalf(list, k);
    assert |list| == 1;
    HalfIsPast(x, i, k);
    assert !ShellHalf(w, k);
  }

  /** The step that ends the second half leaves no exec session of its history. */
  lemma ExecTaken(x: World, i: nat, ok: bool, w: Work, k: Ticket, s: Session)
    requires Inv(x) && Graced(x) && At(x, i, w) && ExecHalf(w, k) && s.id == k.id && s.number == k.history
    requires !HasExecHalf(Step(x, i, ok).threads[i], k)
    ensures !Has(Step(x, i, ok).execs, s)
  {
    hide Inv, PastBoth, OneKind, Shape, HalfDone, NodeShells.Do, FromNode, Unused;
    assert ItemKnows(x, x.threads[i][0]);
    if w.Exec? {
      var t := w.x.s;
      ExecStepTables(x, i, w.x, ok);
      TimerItem(x, i, w);
      assert s == t || s == Flip(t);
      UnusedIsClosed(x, Flip(t));
    } else {
      HandStepTables(x, i, w.h);
      ExecHalfGoesOn(x, i, k);
    }
  }

  lemma TimerItem(x: World, i: nat, w: Work)
    requires Inv(x) && At(x, i, w)
    ensures ItemOk(x.timers, w)
  {
    hide Keeps, Unused, TicketKeeps, Logged;
    HeadOk(x, i, w);
  }

  lemma UnusedIsClosed(x: World, s: Session)
    requires Inv(x) && Unused(x, s)
    ensures !Has(x.execs, s)
  {
    hide HowMany;
    assert Keeps(x, s);
  }

  /** A lookup that finds the session goes on to its release. */
  lemma ExecHalfGoesOn(x: World, i: nat, k: Ticket)
    requires At(x, i, Hand(Handoff.ExecOf(k)))
    ensures k.id in x.execs && x.execs[k.id].number == k.history ==> HasExecHalf(HandStep(x, i, Handoff.ExecOf(k)).threads[i], k)
  {
    if k.id in x.execs && x.execs[k.id].number == k.history {
      var list := HandStep(x, i, Handoff.ExecOf(k)).threads[i];
      assert ExecHalf(list[0], k);
    }
  }

  // ---- A creator that still starts opens its session ----

  lemma {:induction false} FindRole(threads: seq<seq<Work>>, r: Role, s: Session) returns (i: nat, j: nat)
    requires HowMany(threads, r, s) > 0
    ensures i < |threads| && j < |threads[i]| && RoleOf(threads[i][j], s) == r
    decreases |threads|
  {
    var n := |threads| - 1;
    if InList(threads[n], r, s) > 0 {
      i := n;
      j := FindInList(threads[n], r, s);
    } else {
      i, j := FindRole(threads[..n], r, s);
    }
  }

  lemma {:induction false} FindInList(list: seq<Work>, r: Role, s: Session) returns (j: nat)
    requires InList(list, r, s) > 0
    ensures j < |list| && RoleOf(list[j], s) == r
    decreases |list|
  {
    if RoleOf(list[0], s) == r {
      j := 0;
    } else {
      j := FindInList(list[1..], r, s);
      j := j + 1;
    }
  }

  lemma StartingIs(w: Work, s: Session)
    requires RoleOf(w, s) == Starting && !Raw(w)
    ensures Starts(w) && Creates(w)
    ensures w in [Node(NodeShells.WaitPod(s)), Exec(ExecSessions.FindContainer(s)), Exec(ExecSessions.Start(s)),
                  Exec(ExecSessions.NewExecutor(s)), Exec(ExecSessions.Register(s))]
  {
  }

  lemma Alone1(x: World, i: nat, n: nat)
    ensures Alone(x, i, n + 1) == Alone(Next(x, i), i, n)
  {
    hide Next;
    AloneThen(x, i, 1, n);
    AloneSteps(x, i);
  }

  lemma ExecutorOpens(x: World, i: nat, s: Session)
    requires List(x, i, [Exec(ExecSessions.NewExecutor(s))])
    ensures Has(Alone(x, i, 2).execs, s)
  {
    hide Next, List;
    ExecutorNext(x, i, s);
    RegisterNext(Next(x, i), i, s);
    Alone1(x, i, 1);
    AloneSteps(Next(x, i), i);
  }

  lemma TornDownNext(x: World, i: nat, t: Session, w: Work)
    requires List(x, i, [Exec(ExecSessions.TearDown(t)), w])
    ensures List(Next(x, i), i, [w])
  {
    assert [Exec(ExecSessions.TearDown(t))] + [w] == [Exec(ExecSessions.TearDown(t)), w];
    ExecNext(x, i, ExecSessions.TearDown(t), [w]);
  }

  lemma StartOpens(x: World, i: nat, s: Session) returns (n: nat)
    requires List(x, i, [Exec(ExecSessions.Start(s))])
    ensures Has(Alone(x, i, n).execs, s)
  {
    hide Next;
    assert [Exec(ExecSessions.Start(s))] + [] == [Exec(ExecSessions.Start(s))];
    ExecNext(x, i, ExecSessions.Start(s), []);
    var y := Next(x, i);
    if s.id in x.execs {
      TornDownNext(y, i, x.execs[s.id], Exec(ExecSessions.NewExecutor(s)));
      ExecutorOpens(Next(y, i), i, s);
      Alone1(x, i, 3);
      Alone1(y, i, 2);
      n := 4;
    } else {
      ExecutorOpens(y, i, s);
      Alone1(x, i, 2);
      n := 3;
    }
  }

  lemma ItemOpens(x: World, i: nat, w: Work, s: Session) returns (n: nat)
    requires List(x, i, [w]) && RoleOf(w, s) == Starting && !Raw(w)
    ensures Has(Alone(x, i, n).execs, s)
  {
    hide Next, RoleOf, Raw, Alone;
    StartingIs(w, s);
    if w == Exec(ExecSessions.Register(s)) {
      RegisterNext(x, i, s);
      AloneSteps(x, i);
      n := 1;
    } else if w == Exec(ExecSessions.NewExecutor(s)) {
      ExecutorOpens(x, i, s);
      n := 2;
    } else if w == Exec(ExecSessions.Start(s)) {
      n := StartOpens(x, i, s);
    } else {
      GetsToStart(x, i, w, s);
      n := StartOpens(Next(x, i), i, s);
      Alone1(x, i, n);
      n := n + 1;
    }
  }

  lemma GetsToStart(x: World, i: nat, w: Work, s: Session)
    requires List(x, i, [w]) && w in [Node(NodeShells.WaitPod(s)), Exec(ExecSessions.FindContainer(s))]
    ensures List(Next(x, i), i, [Exec(ExecSessions.Start(s))])
  {
    hide Next;
    assert [w] + [] == [w];
    if w.Node? {
      NodeNext(x, i, NodeShells.WaitPod(s), []);
    } else {
      ExecNext(x, i, ExecSessions.FindContainer(s), []);
    }
  }

  lemma StarterOpens(x: World, s: Session) returns (i: nat, n: nat)
    requires Graced(x) && Shaped(x) && HowMany(x.threads, Starting, s) > 0
    ensures Has(Alone(x, i, n).execs, s)
  {
    hide HowMany, Alone, Creates, RoleOf, Raw, OneKind, ItemKnows, HalfDone, PastBoth;
    var j: nat;
    i, j := FindRole(x.threads, Starting, s);
    var list := x.threads[i];
    assert Shape(list) && CreatesLast(list);
    assert InPlace(list, j);
    var w := list[j];
    StartingIs(w, s);
    assert j == |list| - 1;
    if j == 0 {
      assert list == [w];
      n := ItemOpens(x, i, w, s);
    } else {
      assert list == [Exec(ExecSessions.TearDown(list[0].x.s)), w];
      TornDownNext(x, i, list[0].x.s, w);
      n := ItemOpens(Next(x, i), i, w, s);
      Alone1(x, i, n);
      n := n + 1;
    }
  }

  lemma {:induction false} AloneIsPlay(actions: seq<Action>, i: nat, n: nat) returns (more: seq<Action>)
    ensures Play(actions + more) == Alone(Play(actions), i, n)
  {
    hide Play, Act;
    if n == 0 {
      more := [];
      assert actions + more == actions;
    } else {
      more := AloneIsPlay(actions, i, n - 1);
      more := more + [Run(i, true)];
      PlayLast(actions + more);
      assert (actions + more)[..|actions + more| - 1] == actions + more[..|more| - 1];
    }
  }

  /**
   * The step that ends the second half leaves no exec session of the timer's history
   * either. One is opened in some continuation if and only if its creator is still on its
   * way to open it, past the check that the shell's entry was its own.
   */
  lemma GraceExecIff(actions: seq<Action>, i: nat, ok: bool, w: Work, k: Ticket, s: Session)
    requires At(Play(actions), i, w) && ExecHalf(w, k) && s.id == k.id && s.number == k.history
    requires !HasExecHalf(Step(Play(actions), i, ok).threads[i], k)
    ensures var after := actions + [Run(i, ok)];
      && !Has(Play(after).execs, s) && !Has(Play(after).node.shells, s)
      && ((exists more :: Has(Play(after + more).execs, s)) <==> HowMany(Play(after).threads, Starting, s) > 0)
  {
    hide Play, Inv, Graced, ExecHalf, Past, Step, HasExecHalf, Shaped, HowMany, Alone;
    var x, after := Play(actions), actions + [Run(i, ok)];
    PlayLast(after);
    assert after[..|after| - 1] == actions;
    EveryRun(actions);
    EveryRunGraced(actions);
    ExecTaken(x, i, ok, w, k, s);
    GraceLeavesNoShell(actions, [Run(i, ok)], i, w, k, s);
    AtHalfPast(actions, i, ok, w, k, s);
    if HowMany(Play(after).threads, Starting, s) > 0 {
      EveryRunGraced(after);
      EveryRunFree(after, "");
      var j, n := StarterOpens(Play(after), s);
      var more := AloneIsPlay(after, j, n);
      assert Has(Play(after + more).execs, s);
    } else {
      forall more ensures !Has(Play(after + more).execs, s) {
        RunStays(after, more, s);
      }
    }
  }

  lemma AtHalfPast(actions: seq<Action>, i: nat, ok: bool, w: Work, k: Ticket, s: Session)
    requires At(Play(actions), i, w) && ExecHalf(w, k) && s.id == k.id && s.number == k.history
    ensures Past(Play(actions + [Run(i, ok)]), s)
  {
    hide Play, Inv, Graced, ExecHalf, Past;
    EveryRun(actions);
    EveryRunGraced(actions);
    AtHalf(Play(actions), i, w, k);
    assert s == Owner(k, s.node);
    RunStays(actions, [Run(i, ok)], s);
  }
}
