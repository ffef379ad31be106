// internal/controller/functionBuilder.go:949-975: which end event a scan emits, told
// by the actions of the run alone.

module ScanEnds {
  import opened Options
  import opened ScanRegistry

  /** A return of the scan, once it was started. */
  predicate ReturnAt(actions: seq<Action>, id: string, q: int) {
    0 <= q < |actions| && actions[q].Return? && actions[q].id == id && id in Play(actions[..q]).runs
  }

  /** Action `r` is the scan's return: the first once it was started. */
  predicate Returns(actions: seq<Action>, id: string, r: nat) {
    ReturnAt(actions, id, r) && forall q :: 0 <= q < r ==> !ReturnAt(actions, id, q)
  }

  /** And the goroutine has gone through its deferred end. */
  predicate Ended(actions: seq<Action>, id: string, r: nat) {
    && Returns(actions, id, r)
    && exists f, m :: r < f < m < |actions| && actions[f] == Finish(id) && actions[m] == Emit(id)
  }

  /** Before action `r` a stop found the scan, and went on to cancel its context. */
  predicate CancelledBy(actions: seq<Action>, id: string, r: nat)
    requires r <= |actions|
  {
    var w := Play(actions[..r]);
    id in w.runs && exists p, q ::
      0 <= p < q < r && actions[p] == Stop(id) && id in Play(actions[..p]).runs && actions[q] == CancelContext(w.runs[id].tok)
  }

  // ---- The course of one scan ----

  datatype Course = Before | Back(r: nat) | Closing(r: nat, f: nat) | Out(r: nat, f: nat, m: nat)

  function CourseOf(actions: seq<Action>, id: string): Course {
    if actions == [] then Before
    else
      var n := |actions| - 1;
      var c, a := CourseOf(actions[..n], id), actions[n];
      match c
      case Before => if a.Return? && a.id == id && id in Play(actions[..n]).runs then Back(n) else c
      case Back(r) => if a == Finish(id) then Closing(r, n) else c
      case Closing(r, f) => if a == Emit(id) then Out(r, f, n) else c
      case Out(_, _, _) => c
  }

  lemma {:induction false} CourseIs(actions: seq<Action>, id: string)
    ensures match CourseOf(actions, id)
      case Before => forall q :: !ReturnAt(actions, id, q)
      case Back(r) => Returns(actions, id, r) && forall f :: r < f < |actions| ==> actions[f] != Finish(id)
      case Closing(r, f) =>
        Returns(actions, id, r) && r < f < |actions| && actions[f] == Finish(id) && (forall g :: r < g < f ==> actions[g] != Finish(id))
        && forall m :: f < m < |actions| ==> actions[m] != Emit(id)
      case Out(r, f, m) => r < f < m < |actions| && Returns(actions, id, r) && actions[f] == Finish(id) && actions[m] == Emit(id)
  {
    hide Play, ReturnAt;
    ReturnBounds(actions, id);
    if actions != [] {
      var n := |actions| - 1;
      CourseIs(actions[..n], id);
      ReturnBounds(actions[..n], id);
      SameReturns(actions, id);
      LastReturn(actions, id);
    }
  }

  lemma ReturnBounds(actions: seq<Action>, id: string)
    ensures forall q :: ReturnAt(actions, id, q) ==> 0 <= q < |actions|
  {
    hide Play;
  }

  lemma LastReturn(actions: seq<Action>, id: string)
    requires actions != []
    ensures var n := |actions| - 1;
      ReturnAt(actions, id, n) <==> actions[n].Return? && actions[n].id == id && id in Play(actions[..n]).runs
  {
    hide Play;
  }

  lemma SameReturns(actions: seq<Action>, id: string)
    requires actions != []
    ensures forall q :: q < |actions| - 1 ==> (ReturnAt(actions[..|actions| - 1], id, q) <==> ReturnAt(actions, id, q))
  {
    hide Play;
    var n := |actions| - 1;
    assert forall q :: 0 <= q < n ==> actions[..n][q] == actions[q] && actions[..n][..q] == actions[..q];
  }

  lemma EndedIffOut(actions: seq<Action>, id: string, r: nat)
    ensures Ended(actions, id, r) <==> CourseOf(actions, id).Out? && CourseOf(actions, id).r == r
  {
    hide Play, CourseOf;
    CourseIs(actions, id);
    OneReturn(actions, id);
  }

  lemma OneReturn(actions: seq<Action>, id: string)
    ensures forall q, r :: Returns(actions, id, q) && Returns(actions, id, r) ==> q == r
  {
    hide Play;
  }

  /** The scan's place in its goroutine, and its end events, told by its course. */
  ghost predicate Follows(w: World, c: Course, actions: seq<Action>, id: string) {
    match c
    case Before => (id in w.runs ==> w.runs[id].phase == Scanning) && forall o :: End(id, o) !in w.ends
    case Back(r) =>
      && r < |actions| && actions[r].Return? && id in w.runs
      && w.runs[id].phase == Ending(actions[r].err, Reached(actions, id, r)) && forall o :: End(id, o) !in w.ends
    case Closing(r, f) =>
      && r < |actions| && actions[r].Return? && id in w.runs
      && w.runs[id].phase == Emitting(actions[r].err, Reached(actions, id, r)) && forall o :: End(id, o) !in w.ends
    case Out(r, f, m) =>
      && r < |actions| && actions[r].Return? && id in w.runs && w.runs[id].phase == Over
      && (End(id, Done) in w.ends <==> actions[r].err.None?)
      && (End(id, Cancelled) in w.ends <==> actions[r].err.Some? && Reached(actions, id, r))
      && (forall e :: End(id, Failed(e)) in w.ends <==> actions[r].err == Some(e) && !Reached(actions, id, r))
  }

  /** The scan's context was cancelled when it returned. */
  predicate Reached(actions: seq<Action>, id: string, r: nat)
    requires r <= |actions|
  {
    var w := Play(actions[..r]);
    id in w.runs && w.runs[id].tok in w.stopped
  }

  lemma ReachedEarlier(actions: seq<Action>, id: string, r: nat)
    requires r < |actions|
    ensures Reached(actions[..|actions| - 1], id, r) == Reached(actions, id, r)
    ensures r < |actions| - 1 ==> actions[..|actions| - 1][r] == actions[r]
  {
    hide Play;
    assert actions[..|actions| - 1][..r] == actions[..r];
  }

  /** One action: where a scan's own steps take it. */
  lemma PhaseStep(w: World, a: Action, id: string)
    requires Inv(w)
    ensures var v := Act(w, a);
      && (id in w.runs ==> id in v.runs && v.runs[id].tok == w.runs[id].tok)
      && (id !in w.runs && id in v.runs ==> v.runs[id].phase == Scanning)
      && (id in w.runs ==>
            var r := w.runs[id];
            v.runs[id].phase ==
              if a.Return? && a.id == id && r.phase == Scanning then Ending(a.err, r.tok in w.stopped)
              else if a == Finish(id) && r.phase.Ending? then Emitting(r.phase.err, r.phase.cancelled)
              else if a == Emit(id) && r.phase.Emitting? then Over
              else r.phase)
  {
    hide Begun, Progressed, Stopping, Finished, Find, Inverse, OutcomeOf;
    assert id in w.runs ==> RunOk(w, id);
  }

  /** And which end event the last of them puts out. */
  lemma EndStep(w: World, a: Action, id: string, o: Outcome)
    ensures End(id, o) in Act(w, a).ends <==>
      || End(id, o) in w.ends
      || (a == Emit(id) && id in w.runs && w.runs[id].phase.Emitting?
          && (if w.runs[id].phase.err.None? then o == Done
              else if w.runs[id].phase.cancelled then o == Cancelled else o == Failed(w.runs[id].phase.err.value)))
  {
    hide Begun, Progressed, Stopping, Finished, Find;
  }

  lemma {:induction false} RunFollows(actions: seq<Action>, id: string)
    ensures Follows(Play(actions), CourseOf(actions, id), actions, id)
  {
    hide Play, Act, Inv, Reached;
    PlayLast(actions);
    if actions != [] {
      var n := |actions| - 1;
      var before, a := actions[..n], actions[n];
      RunFollows(before, id);
      EveryRun(before);
      CourseIs(before, id);
      PhaseStep(Play(before), a, id);
      forall o ensures End(id, o) in Play(actions).ends <==> End(id, o) in Play(before).ends || Emits(Play(before), a, id, o) {
        EndStep(Play(before), a, id, o);
      }
      forall r | 0 <= r <= n ensures r < n ==> Reached(before, id, r) == Reached(actions, id, r) && before[r] == actions[r] {
        ReachedEarlier(actions, id, r);
      }
      assert actions[..n] == before;
      ReachedNow(actions, id);
    }
  }

  predicate Emits(w: World, a: Action, id: string, o: Outcome) {
    a == Emit(id) && id in w.runs && w.runs[id].phase.Emitting?
    && (if w.runs[id].phase.err.None? then o == Done
        else if w.runs[id].phase.cancelled then o == Cancelled else o == Failed(w.runs[id].phase.err.value))
  }

  lemma ReachedNow(actions: seq<Action>, id: string)
    requires actions != []
    ensures var w := Play(actions[..|actions| - 1]);
      Reached(actions, id, |actions| - 1) == (id in w.runs && w.runs[id].tok in w.stopped)
  {
    hide Play;
  }

  // ---- Cancelled: a stop that found it, and its cancel, both before the return ----

  predicate StopFound(actions: seq<Action>, id: string, p: int) {
    0 <= p < |actions| && actions[p] == Stop(id) && id in Play(actions[..p]).runs
  }

  predicate CancelFound(actions: seq<Action>, id: string, tok: nat, p: int, q: int) {
    StopFound(actions, id, p) && p < q < |actions| && actions[q] == CancelContext(tok)
  }

  lemma StillLive(w: World, a: Action, id: string)
    requires Inv(w) && id in Act(w, a).runs && Live(Act(w, a).runs[id])
    ensures Find(Act(w, a).scans, id).Some?
    ensures id in w.runs ==> Live(w.runs[id]) && w.runs[id].tok == Act(w, a).runs[id].tok && Find(w.scans, id).Some?
    ensures id !in w.runs ==> Act(w, a).runs[id].tok !in Act(w, a).stopped
  {
    hide Begun, Progressed, Stopping, Finished, Find, Inverse, OutcomeOf;
    ActInv(w, a);
    assert RunOk(Act(w, a), id);
    assert id in w.runs ==> RunOk(w, id);
  }

  /** Only a stop that finds a running scan marks it. */
  lemma MarkStep(w: World, a: Action, id: string)
    requires Inv(w) && id in Act(w, a).runs && Live(Act(w, a).runs[id]) && Find(Act(w, a).scans, id).Some?
    requires id in w.runs ==> Find(w.scans, id).Some?
    ensures Find(Act(w, a).scans, id).value.stopping <==>
            id in w.runs && (Find(w.scans, id).value.stopping || a == Stop(id))
  {
    hide Begun, Progressed, Stopping, Finished, Find, Inverse, OutcomeOf, RunOk;
    match a {
      case Start(cluster, x) => if x !in w.runs && cluster !in w.scans.byCluster { StartMarks(w, cluster, x, id); }
      case Report(x, p) => ProgressedKeeps(w.scans, x, p, id);
      case Stop(x) => StoppingKeeps(w.scans, x, id);
      case Finish(x) => if x in w.runs && w.runs[x].phase.Ending? { FinishedKeeps(w.scans, x, w.runs[x].tok, id); }
      case _ =>
    }
  }

  lemma StartMarks(w: World, cluster: string, x: string, id: string)
    requires Inv(w) && x !in w.runs && cluster !in w.scans.byCluster
    ensures var t := Begun(w.scans, cluster, x, w.next);
      Find(t, id) == if id == x then Some(Entry(x, w.next, FIRST, false)) else Find(w.scans, id)
  {
    hide Begun, Find, Inverse, RunOk;
    BegunKeeps(w.scans, cluster, x, w.next, id);
  }

  /** And only the cancel of a marked scan reaches its context while it runs. */
  lemma ContextStep(w: World, a: Action, id: string)
    requires Inv(w) && id in w.runs && Live(w.runs[id]) && Live(Act(w, a).runs[id]) && Find(w.scans, id).Some?
    ensures var tok := w.runs[id].tok;
      tok in Act(w, a).stopped <==> tok in w.stopped || (a == CancelContext(tok) && Find(w.scans, id).value.stopping)
  {
    hide Begun, Progressed, Stopping, Finished, Find, Inverse, OutcomeOf;
    if a.CancelContext? {
      AskedIs(w, a.tok, id);
    }
  }

  lemma AskedIs(w: World, tok: nat, id: string)
    requires Inv(w)
    ensures id in w.runs && Live(w.runs[id]) && w.runs[id].tok == tok ==> (AskedToStop(w, tok) <==> Find(w.scans, id).value.stopping)
  {
    hide Inverse;
    assert id in w.runs ==> RunOk(w, id);
    forall x | x in w.scans.byID ensures x in w.runs && RunOk(w, x) {
    }
  }

  lemma {:induction false} StoppedBy(actions: seq<Action>, id: string)
    requires id in Play(actions).runs && Live(Play(actions).runs[id])
    ensures var w := Play(actions); var tok := w.runs[id].tok;
      && Find(w.scans, id).Some?
      && (Find(w.scans, id).value.stopping <==> exists p :: StopFound(actions, id, p))
      && (tok in w.stopped <==> exists p, q :: CancelFound(actions, id, tok, p, q))
    decreases |actions|
  {
    hide Play, Act, Inv, Live, StopFound;
    PlayLast(actions);
    if actions == [] {
      NobodyRuns();
    } else {
      var n := |actions| - 1;
      var before, a := actions[..n], actions[n];
      EveryRun(before);
      StillLive(Play(before), a, id);
      MarkStep(Play(before), a, id);
      FoundSnoc(actions, id);
      if id in Play(before).runs {
        StoppedBy(before, id);
        ContextStep(Play(before), a, id);
        FoundMore(actions, id, Play(actions).runs[id].tok);
      } else {
        NotFoundYet(before, id);
        FoundMore(actions, id, Play(actions).runs[id].tok);
      }
    }
  }

  lemma NobodyRuns()
    ensures Play([]).runs == map[]
  {
  }

  lemma FoundSnoc(actions: seq<Action>, id: string)
    requires actions != []
    ensures var n := |actions| - 1;
      && (StopFound(actions, id, n) <==> actions[n] == Stop(id) && id in Play(actions[..n]).runs)
      && (forall p :: p != n ==> (StopFound(actions, id, p) <==> StopFound(actions[..n], id, p)))
      && (forall p :: StopFound(actions[..n], id, p) ==> 0 <= p < n)
  {
    hide Play;
    var n := |actions| - 1;
    assert forall p :: 0 <= p < n ==> actions[..n][p] == actions[p] && actions[..n][..p] == actions[..p];
  }

  lemma FoundMore(actions: seq<Action>, id: string, tok: nat)
    requires actions != []
    ensures var n := |actions| - 1;
      (exists p, q :: CancelFound(actions, id, tok, p, q)) <==>
        || (exists p, q :: CancelFound(actions[..n], id, tok, p, q))
        || (actions[n] == CancelContext(tok) && exists p :: StopFound(actions[..n], id, p))
  {
    hide StopFound;
    var n := |actions| - 1;
    FoundSnoc(actions, id);
    assert forall q :: 0 <= q < n ==> actions[..n][q] == actions[q];
    forall p, q ensures CancelFound(actions, id, tok, p, q) <==>
        CancelFound(actions[..n], id, tok, p, q) || (q == n && StopFound(actions[..n], id, p) && actions[n] == CancelContext(tok)) {
    }
    if p :| StopFound(actions[..n], id, p) && actions[n] == CancelContext(tok) {
      assert CancelFound(actions, id, tok, p, n);
    }
    if p, q :| CancelFound(actions[..n], id, tok, p, q) {
      assert CancelFound(actions, id, tok, p, q);
    }
  }

  /** A started scan stays known. */
  lemma {:induction false} NotFoundYet(actions: seq<Action>, id: string)
    requires id !in Play(actions).runs
    ensures forall p :: !StopFound(actions, id, p)
    decreases |actions|
  {
    hide Play, Act, Inv, StopFound;
    if actions == [] {
      NothingFound(id);
    } else {
      var n := |actions| - 1;
      PlayLast(actions);
      EveryRun(actions[..n]);
      PhaseStep(Play(actions[..n]), actions[n], id);
      NotFoundYet(actions[..n], id);
      FoundSnoc(actions, id);
    }
  }

  lemma NothingFound(id: string)
    ensures forall p :: !StopFound([], id, p)
  {
  }

  /** At its return a scan's context is cancelled exactly by a stop that found it and its cancel. */
  lemma ReachedIff(actions: seq<Action>, id: string, r: nat)
    requires Returns(actions, id, r)
    ensures Reached(actions, id, r) <==> CancelledBy(actions, id, r)
  {
    hide Play, CourseOf;
    var before := actions[..r];
    assert forall p :: 0 <= p < r ==> before[p] == actions[p] && before[..p] == actions[..p];
    RunFollows(before, id);
    CourseIs(before, id);
    assert forall q :: ReturnAt(before, id, q) ==> ReturnAt(actions, id, q) && q < r;
    assert CourseOf(before, id).Before?;
    StoppedBy(before, id);
    var tok := Play(before).runs[id].tok;
    if p, q :| CancelFound(before, id, tok, p, q) {
      assert actions[p] == Stop(id) && actions[q] == CancelContext(tok);
    }
    if CancelledBy(actions, id, r) {
      var p, q :| 0 <= p < q < r && actions[p] == Stop(id) && id in Play(actions[..p]).runs && actions[q] == CancelContext(tok);
      assert CancelFound(before, id, tok, p, q);
    }
  }

  // ---- The end event ----

  /** Done is out if and only if the goroutine is over and the scan returned without an error. */
  lemma DoneIff(actions: seq<Action>, id: string)
    ensures End(id, Done) in Play(actions).ends <==> exists r :: 0 <= r < |actions| && Ended(actions, id, r) && actions[r].err.None?
  {
    hide Play, Ended;
    EndsFollow(actions, id);
  }

  /** Cancelled is out if and only if it returned with an error and its context had been cancelled by then. */
  lemma CancelledIff(actions: seq<Action>, id: string)
    ensures End(id, Cancelled) in Play(actions).ends <==>
            exists r :: 0 <= r < |actions| && Ended(actions, id, r) && actions[r].err.Some? && CancelledBy(actions, id, r)
  {
    hide Play, Ended, CancelledBy;
    EndsFollow(actions, id);
  }

  /** An error is out if and only if it returned with that error and nobody had cancelled it by then. */
  lemma FailedIff(actions: seq<Action>, id: string, e: string)
    ensures End(id, Failed(e)) in Play(actions).ends <==>
            exists r :: 0 <= r < |actions| && Ended(actions, id, r) && actions[r].err == Some(e) && !CancelledBy(actions, id, r)
  {
    hide Play, Ended, CancelledBy;
    EndsFollow(actions, id);
  }

  /** What is out once action `r` was the return of a scan that has ended. */
  predicate Tells(actions: seq<Action>, id: string, r: nat, o: Outcome)
    requires r < |actions| && actions[r].Return?
  {
    var err := actions[r].err;
    match o
    case Done => err.None?
    case Cancelled => err.Some? && CancelledBy(actions, id, r)
    case Failed(e) => err == Some(e) && !CancelledBy(actions, id, r)
  }

  lemma EndsFollow(actions: seq<Action>, id: string)
    ensures forall r :: 0 <= r < |actions| && Ended(actions, id, r) ==> actions[r].Return?
    ensures forall q, r :: 0 <= q < |actions| && 0 <= r < |actions| && Ended(actions, id, q) && Ended(actions, id, r) ==> q == r
    ensures forall o :: End(id, o) in Play(actions).ends <==>
      exists r :: 0 <= r < |actions| && Ended(actions, id, r) && Tells(actions, id, r, o)
  {
    hide Play, CourseOf, Ended, Reached, CancelledBy, Tells;
    RunFollows(actions, id);
    CourseIs(actions, id);
    forall r | 0 <= r < |actions| ensures Ended(actions, id, r) <==> CourseOf(actions, id).Out? && CourseOf(actions, id).r == r {
      EndedIffOut(actions, id, r);
    }
    if CourseOf(actions, id).Out? {
      var r := CourseOf(actions, id).r;
      ReachedIff(actions, id, r);
      forall o ensures End(id, o) in Play(actions).ends <==> Tells(actions, id, r, o) {
        OutTells(actions, id, o);
      }
    }
  }

  lemma OutTells(actions: seq<Action>, id: string, o: Outcome)
    requires var c := CourseOf(actions, id); c.Out? && Follows(Play(actions), c, actions, id)
    requires var r := CourseOf(actions, id).r; Reached(actions, id, r) <==> CancelledBy(actions, id, r)
    ensures End(id, o) in Play(actions).ends <==> Tells(actions, id, CourseOf(actions, id).r, o)
  {
    hide Play, CourseOf, Reached, CancelledBy;
  }
}
