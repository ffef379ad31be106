// internal/controller/trivyScanRegistry.go and functionBuilder.go:940-1000: one
// running scan per cluster, and one end event for each scan that was started.

module ScanRegistry {
  import opened Options

  datatype Progress = Progress(phase: string, current: int, total: int, message: string)

  datatype Entry = Entry(id: string, tok: nat, last: Progress, stopping: bool)

  datatype Scans = Scans(byCluster: map<string, Entry>, byID: map<string, string>)

  const NONE := Scans(map[], map[])
  const FIRST := Progress("targets", 0, 0, "")

  /** The live entry of a scan id. */
  function Find(s: Scans, id: string): Option<Entry> {
    if id in s.byID && s.byID[id] in s.byCluster && s.byCluster[s.byID[id]].id == id then Some(s.byCluster[s.byID[id]])
    else None
  }

  function Put(s: Scans, e: Entry): Scans
    requires e.id in s.byID
  {
    s.(byCluster := s.byCluster[s.byID[e.id] := e])
  }

  function Begun(s: Scans, cluster: string, id: string, tok: nat): Scans {
    if cluster in s.byCluster then s
    else Scans(s.byCluster[cluster := Entry(id, tok, FIRST, false)], s.byID[id := cluster])
  }

  function Progressed(s: Scans, id: string, p: Progress): Scans {
    var e := Find(s, id);
    if e.Some? && !e.value.stopping then Put(s, e.value.(last := p)) else s
  }

  function Stopping(s: Scans, id: string): Scans {
    var e := Find(s, id);
    if e.Some? then Put(s, e.value.(stopping := true, last := e.value.last.(phase := "stopping"))) else s
  }

  predicate Owned(s: Scans, id: string, tok: nat) { Find(s, id).Some? && Find(s, id).value.tok == tok }

  function Finished(s: Scans, id: string, tok: nat): Scans {
    if Owned(s, id, tok) then Scans(s.byCluster - {s.byID[id]}, s.byID - {id}) else s
  }

  /** The two maps are inverse to each other; a stopping scan says so. */
  predicate Inverse(s: Scans) {
    && (forall c :: c in s.byCluster ==> s.byCluster[c].id in s.byID && s.byID[s.byCluster[c].id] == c)
    && (forall id :: id in s.byID ==> s.byID[id] in s.byCluster && s.byCluster[s.byID[id]].id == id)
    && (forall c :: c in s.byCluster && s.byCluster[c].stopping ==> s.byCluster[c].last.phase == "stopping")
  }

  class Registry {
    var byCluster: map<string, Entry>
    var byID: map<string, string>

    ghost function Value(): Scans reads this { Scans(byCluster, byID) }

    constructor ()
      ensures Value() == NONE && Inverse(Value())
    {
      byCluster, byID := map[], map[];
    }

    function Live(id: string): Option<Entry>
      reads this
      ensures Live(id) == Find(Value(), id)
    {
      if id !in byID then None
      else if byID[id] !in byCluster || byCluster[byID[id]].id != id then None
      else Some(byCluster[byID[id]])
    }

    /** `newId` and `tok` stand for the new uuid and the new cancel token. */
    method Begin(cluster: string, newId: string, tok: nat) returns (id: string, started: bool)
      requires Inverse(Value()) && newId !in byID
      modifies this
      ensures Value() == Begun(old(Value()), cluster, newId, tok) && Inverse(Value())
      ensures started == (cluster !in old(byCluster)) && Find(Value(), id).Some? && byID[id] == cluster
      ensures id == if started then newId else old(byCluster)[cluster].id
    {
      if cluster in byCluster {
        return byCluster[cluster].id, false;
      }
      byCluster := byCluster[cluster := Entry(newId, tok, FIRST, false)];
      byID := byID[newId := cluster];
      return newId, true;
    }

    method Report(id: string, p: Progress) returns (kept: bool)
      requires Inverse(Value())
      modifies this`byCluster
      ensures Value() == Progressed(old(Value()), id, p) && Inverse(Value())
      ensures kept == (old(Live(id)).Some? && !old(Live(id)).value.stopping)
    {
      var e := Live(id);
      if e.None? || e.value.stopping {
        return false;
      }
      byCluster := byCluster[byID[id] := e.value.(last := p)];
      return true;
    }

    method Cancel(id: string) returns (tok: Option<nat>)
      requires Inverse(Value())
      modifies this`byCluster
      ensures Value() == Stopping(old(Value()), id) && Inverse(Value())
      ensures tok == if old(Live(id)).Some? then Some(old(Live(id)).value.tok) else None
    {
      var e := Live(id);
      if e.None? {
        return None;
      }
      var last := e.value.last;
      byCluster := byCluster[byID[id] := e.value.(stopping := true, last := Progress("stopping", last.current, last.total, last.message))];
      return Some(e.value.tok);
    }

    method Finish(id: string, tok: nat) returns (owned: bool)
      requires Inverse(Value())
      modifies this
      ensures Value() == Finished(old(Value()), id, tok) && Inverse(Value())
      ensures owned == old(Owned(Value(), id, tok))
    {
      var e := Live(id);
      owned := e.Some? && e.value.tok == tok;
      if owned {
        byCluster := byCluster - {byID[id]};
        byID := byID - {id};
      }
    }

    method Running(cluster: string) returns (r: Option<(string, Progress)>)
      requires Inverse(Value())
      ensures r.Some? <==> exists id :: id in byID && byID[id] == cluster
      ensures r.Some? ==> Find(Value(), r.value.0).Some? && byID[r.value.0] == cluster && r.value.1 == Find(Value(), r.value.0).value.last
    {
      if cluster !in byCluster {
        return None;
      }
      r := Some((byCluster[cluster].id, byCluster[cluster].last));
      assert byID[byCluster[cluster].id] == cluster;
    }
  }

  // ---- Every run ----

  /** Where a scan's goroutine is. The deferred end reads the context, then finishes, then emits. */
  datatype Phase =
    | Scanning
    | Ending(err: Option<string>, cancelled: bool)
    | Emitting(err: Option<string>, cancelled: bool)
    | Quit   // finish was not its own
    | Over

  datatype Run = Run(cluster: string, tok: nat, phase: Phase)

  datatype Outcome = Done | Cancelled | Failed(err: string)

  datatype End = End(id: string, outcome: Outcome)

  datatype World = World(scans: Scans, runs: map<string, Run>, stopped: set<nat>, ends: seq<End>, next: nat)

  const IDLE := World(NONE, map[], {}, [], 0)

  datatype Action =
    | Start(cluster: string, id: string)          // TrivyStartClusterScan; `id` is the new uuid
    | Report(id: string, p: Progress)             // the run's progress callback
    | Stop(id: string)                            // cancel's locked part
    | CancelContext(tok: nat)                     // and its call of tok.cancel
    | Return(id: string, err: Option<string>)     // the scan returned, or panicked
    | Finish(id: string)
    | Emit(id: string)

  function OutcomeOf(err: Option<string>, cancelled: bool): Outcome {
    if err.None? then Done else if cancelled then Cancelled else Failed(err.value)
  }

  /** A started scan's context was asked to be cancelled. */
  predicate AskedToStop(w: World, tok: nat) {
    exists id :: id in w.scans.byID && Find(w.scans, id).Some? && Find(w.scans, id).value.tok == tok && Find(w.scans, id).value.stopping
  }

  function Act(w: World, a: Action): World {
    match a
    case Start(cluster, id) =>
      if id in w.runs || cluster in w.scans.byCluster then w
      else w.(scans := Begun(w.scans, cluster, id, w.next), runs := w.runs[id := Run(cluster, w.next, Scanning)], next := w.next + 1)
    case Report(id, p) =>
      if id in w.runs && w.runs[id].phase == Scanning then w.(scans := Progressed(w.scans, id, p)) else w
    case Stop(id) => w.(scans := Stopping(w.scans, id))
    case CancelContext(tok) =>
      if AskedToStop(w, tok) then w.(stopped := w.stopped + {tok}) else w
    case Return(id, err) =>
      if id in w.runs && w.runs[id].phase == Scanning then
        w.(runs := w.runs[id := w.runs[id].(phase := Ending(err, w.runs[id].tok in w.stopped))])
      else w
    case Finish(id) =>
      if id in w.runs && w.runs[id].phase.Ending? then
        var r := w.runs[id];
        w.(scans := Finished(w.scans, id, r.tok),
           runs := w.runs[id := r.(phase := if Owned(w.scans, id, r.tok) then Emitting(r.phase.err, r.phase.cancelled) else Quit)],
           stopped := w.stopped + {r.tok})
      else w
    case Emit(id) =>
      if id in w.runs && w.runs[id].phase.Emitting? then
        var r := w.runs[id];
        w.(runs := w.runs[id := r.(phase := Over)], ends := w.ends + [End(id, OutcomeOf(r.phase.err, r.phase.cancelled))])
      else w
  }

  function Play(actions: seq<Action>): World {
    if actions == [] then IDLE else Act(Play(actions[..|actions| - 1]), actions[|actions| - 1])
  }

  function Ends(ends: seq<End>, id: string): nat {
    if ends == [] then 0 else Ends(ends[..|ends| - 1], id) + if ends[|ends| - 1].id == id then 1 else 0
  }

  predicate Live(r: Run) { r.phase == Scanning || r.phase.Ending? }

  /** One started scan: its entry is its own until it finishes, it always wins finish, and it ends once. */
  predicate RunOk(w: World, id: string)
    requires id in w.runs
  {
    var r := w.runs[id];
    && r.tok < w.next
    && r.phase != Quit
    && (Live(r) ==> Owned(w.scans, id, r.tok) && w.scans.byID[id] == r.cluster)
    && (!Live(r) ==> id !in w.scans.byID)
    && (Live(r) && r.tok in w.stopped ==> Find(w.scans, id).value.stopping)
    && (r.phase.Ending? && r.phase.cancelled ==> Find(w.scans, id).value.stopping)
    && Ends(w.ends, id) == if r.phase == Over then 1 else 0
  }

  ghost predicate Inv(w: World) {
    && Inverse(w.scans)
    && (forall id :: id in w.scans.byID ==> id in w.runs)
    && (forall id :: id in w.runs ==> RunOk(w, id))
    && (forall id :: id !in w.runs ==> Ends(w.ends, id) == 0)
    && (forall a, b :: a in w.runs && b in w.runs && a != b ==> w.runs[a].tok != w.runs[b].tok)
    && (forall t :: t in w.stopped ==> t < w.next)
  }

  // What each operation does to the other scans: nothing.

  lemma BegunKeeps(s: Scans, cluster: string, id: string, tok: nat, other: string)
    requires Inverse(s) && cluster !in s.byCluster && id !in s.byID
    ensures var t := Begun(s, cluster, id, tok);
      && Inverse(t) && t.byID.Keys == s.byID.Keys + {id}
      && Find(t, id) == Some(Entry(id, tok, FIRST, false)) && t.byID[id] == cluster
      && (other != id ==> Find(t, other) == Find(s, other))
      && (other != id && other in s.byID ==> t.byID[other] == s.byID[other])
  {
  }

  lemma ProgressedKeeps(s: Scans, id: string, p: Progress, other: string)
    requires Inverse(s)
    ensures var t := Progressed(s, id, p);
      && Inverse(t) && t.byID == s.byID
      && (Find(t, other).Some? <==> Find(s, other).Some?)
      && (Find(s, other).Some? ==> Find(t, other).value.tok == Find(s, other).value.tok
                                   && Find(t, other).value.stopping == Find(s, other).value.stopping)
  {
  }

  lemma StoppingKeeps(s: Scans, id: string, other: string)
    requires Inverse(s)
    ensures var t := Stopping(s, id);
      && Inverse(t) && t.byID == s.byID
      && (Find(t, other).Some? <==> Find(s, other).Some?)
      && (Find(s, other).Some? ==> Find(t, other).value.tok == Find(s, other).value.tok
                                   && Find(t, other).value.stopping == (Find(s, other).value.stopping || other == id))
  {
  }

  lemma FinishedKeeps(s: Scans, id: string, tok: nat, other: string)
    requires Inverse(s)
    ensures var t := Finished(s, id, tok);
      && Inverse(t) && t.byID.Keys == s.byID.Keys - (if Owned(s, id, tok) then {id} else {})
      && (other != id ==> Find(t, other) == Find(s, other))
      && (other != id && other in s.byID ==> t.byID[other] == s.byID[other])
  {
  }

  lemma FindKnows(s: Scans, id: string)
    ensures Find(s, id).Some? ==> id in s.byID
  {
  }

  lemma StartInv(w: World, cluster: string, id: string)
    requires Inv(w)
    ensures Inv(Act(w, Start(cluster, id)))
  {
    hide Begun, Inverse, Find;
    var v := Act(w, Start(cluster, id));
    if id !in w.runs && cluster !in w.scans.byCluster {
      forall x | x in v.runs ensures RunOk(v, x) {
        FindKnows(w.scans, x);
        BegunKeeps(w.scans, cluster, id, w.next, x);
        assert x in w.runs ==> RunOk(w, x);
      }
      BegunKeeps(w.scans, cluster, id, w.next, id);
    }
  }

  lemma ReportInv(w: World, id: string, p: Progress)
    requires Inv(w)
    ensures Inv(Act(w, Report(id, p)))
  {
    hide Progressed, Inverse, Find;
    var v := Act(w, Report(id, p));
    ProgressedKeeps(w.scans, id, p, id);
    forall x | x in v.runs ensures RunOk(v, x) {
      ProgressedKeeps(w.scans, id, p, x);
      assert RunOk(w, x);
    }
  }

  lemma StopInv(w: World, id: string)
    requires Inv(w)
    ensures Inv(Act(w, Stop(id)))
  {
    hide Stopping, Inverse, Find;
    var v := Act(w, Stop(id));
    StoppingKeeps(w.scans, id, id);
    forall x | x in v.runs ensures RunOk(v, x) {
      StoppingKeeps(w.scans, id, x);
      assert RunOk(w, x);
    }
  }

  lemma CancelInv(w: World, tok: nat)
    requires Inv(w)
    ensures Inv(Act(w, CancelContext(tok)))
  {
    hide Inverse, Find;
    var v := Act(w, CancelContext(tok));
    if AskedToStop(w, tok) {
      var id :| id in w.scans.byID && Find(w.scans, id).Some? && Find(w.scans, id).value.tok == tok && Find(w.scans, id).value.stopping;
      assert RunOk(w, id);
      forall x | x in v.runs ensures RunOk(v, x) {
        assert RunOk(w, x);
      }
    }
  }

  lemma ReturnInv(w: World, id: string, err: Option<string>)
    requires Inv(w)
    ensures Inv(Act(w, Return(id, err)))
  {
    hide Inverse, Find;
    var v := Act(w, Return(id, err));
    forall x | x in v.runs ensures RunOk(v, x) {
      assert RunOk(w, x);
    }
  }

  lemma FinishInv(w: World, id: string)
    requires Inv(w)
    ensures Inv(Act(w, Finish(id)))
  {
    hide Inverse, Find, Finished;
    var v := Act(w, Finish(id));
    if id in w.runs && w.runs[id].phase.Ending? {
      assert RunOk(w, id);
      FinishedKeeps(w.scans, id, w.runs[id].tok, id);
      forall x | x in v.runs ensures RunOk(v, x) {
        FinishedRun(w, id, x);
      }
    }
  }

  /** What finishing one scan does to each of the runs. */
  lemma FinishedRun(w: World, id: string, x: string)
    requires Inverse(w.scans) && id in w.runs && w.runs[id].phase.Ending? && x in w.runs && RunOk(w, x) && RunOk(w, id)
    requires x != id ==> w.runs[x].tok != w.runs[id].tok
    ensures var v := Act(w, Finish(id)); x in v.runs && RunOk(v, x)
  {
    hide Inverse, Find, Finished;
    FindKnows(w.scans, x);
    FinishedKeeps(w.scans, id, w.runs[id].tok, x);
  }

  lemma EmitInv(w: World, id: string)
    requires Inv(w)
    ensures Inv(Act(w, Emit(id)))
  {
    hide Inverse, Find, Owned, Ends, OutcomeOf;
    var v := Act(w, Emit(id));
    if id in w.runs && w.runs[id].phase.Emitting? {
      assert RunOk(w, id);
      forall x ensures Ends(v.ends, x) == Ends(w.ends, x) + if x == id then 1 else 0 {
        EndsSnoc(w.ends, End(id, OutcomeOf(w.runs[id].phase.err, w.runs[id].phase.cancelled)), x);
      }
      forall x | x in v.runs ensures RunOk(v, x) {
        assert RunOk(w, x);
      }
    }
  }

  lemma EndsSnoc(ends: seq<End>, e: End, x: string)
    ensures Ends(ends + [e], x) == Ends(ends, x) + if e.id == x then 1 else 0
  {
    assert (ends + [e])[..|ends|] == ends;
  }

  lemma {:induction false} EveryRun(actions: seq<Action>)
    ensures Inv(Play(actions))
  {
    hide Inv, Act;
    PlayLast(actions);
    if actions == [] {
      IdleInv();
    } else {
      var n := |actions| - 1;
      EveryRun(actions[..n]);
      ActInv(Play(actions[..n]), actions[n]);
    }
  }

  lemma PlayLast(actions: seq<Action>)
    ensures Play(actions) == if actions == [] then IDLE else Act(Play(actions[..|actions| - 1]), actions[|actions| - 1])
  {
    hide Act;
  }

  lemma IdleInv()
    ensures Inv(IDLE)
  {
  }

  lemma ActInv(w: World, a: Action)
    requires Inv(w)
    ensures Inv(Act(w, a))
  {
    hide Inv, Act;
    match a
    case Start(cluster, id) => StartInv(w, cluster, id);
    case Report(id, p) => ReportInv(w, id, p);
    case Stop(id) => StopInv(w, id);
    case CancelContext(tok) => CancelInv(w, tok);
    case Return(id, err) => ReturnInv(w, id, err);
    case Finish(id) => FinishInv(w, id);
    case Emit(id) => EmitInv(w, id);
  }

  // ---- What every run guarantees ----

  /** Every started scan wins its finish and emits exactly one end event, when its goroutine is over. */
  lemma OneEndEvent(actions: seq<Action>, id: string)
    ensures var w := Play(actions);
      && Ends(w.ends, id) == (if id in w.runs && w.runs[id].phase == Over then 1 else 0)
      && (id in w.runs ==> w.runs[id].phase != Quit)
  {
    hide Play;
    EveryRun(actions);
    var w := Play(actions);
    if id in w.runs {
      assert RunOk(w, id);
    }
  }

  /** At most one scan of a cluster is running, and it is the one both maps name. */
  lemma OneScanPerCluster(actions: seq<Action>, a: string, b: string)
    requires var w := Play(actions); a in w.runs && b in w.runs && Live(w.runs[a]) && Live(w.runs[b])
    requires Play(actions).runs[a].cluster == Play(actions).runs[b].cluster
    ensures a == b && a in Play(actions).scans.byID
  {
    hide Play;
    EveryRun(actions);
    assert RunOk(Play(actions), a) && RunOk(Play(actions), b);
  }

  predicate SaysStopping(w: World, id: string) {
    var e := Find(w.scans, id);
    e.Some? && e.value.stopping && e.value.last.phase == "stopping" && w.scans.byCluster[w.scans.byID[id]] == e.value
  }

  /** Once a running scan is cancelled, its cluster reports "stopping" until it finishes, whatever progress still comes in. */
  lemma {:induction false} StoppingUntilFinish(actions: seq<Action>, more: seq<Action>, id: string)
    requires Find(Play(actions).scans, id).Some?
    requires Finish(id) !in more
    ensures SaysStopping(Play(actions + [Stop(id)] + more), id)
  {
    hide Play, Act, Inv, SaysStopping;
    var all := actions + [Stop(id)] + more;
    PlayLast(all);
    EveryRun(all[..|all| - 1]);
    if more == [] {
      assert all[..|all| - 1] == actions;
      StopSays(Play(actions), id);
    } else {
      var n := |more| - 1;
      StoppingUntilFinish(actions, more[..n], id);
      assert all[..|all| - 1] == actions + [Stop(id)] + more[..n];
      StaysStopping(Play(all[..|all| - 1]), more[n], id);
    }
  }

  lemma StopSays(w: World, id: string)
    requires Inv(w) && Find(w.scans, id).Some?
    ensures SaysStopping(Act(w, Stop(id)), id)
  {
    StoppingKeeps(w.scans, id, id);
  }

  lemma StaysStopping(w: World, a: Action, id: string)
    requires Inv(w) && SaysStopping(w, id) && a != Finish(id)
    ensures SaysStopping(Act(w, a), id)
  {
    hide Begun, Progressed, Stopping, Finished, Find, Inverse, Owned, OutcomeOf, RunOk, AskedToStop;
    FindKnows(w.scans, id);
    match a {
      case Start(cluster, x) => if x !in w.runs && cluster !in w.scans.byCluster { BegunKeeps(w.scans, cluster, x, w.next, id); }
      case Report(x, p) => ProgressedKeeps(w.scans, x, p, id);
      case Stop(x) => StoppingKeeps(w.scans, x, id);
      case Finish(x) => if x in w.runs && w.runs[x].phase.Ending? { FinishedKeeps(w.scans, x, w.runs[x].tok, id); }
      case _ =>
    }
    LiveSays(Act(w, a).scans, id);
  }

  lemma LiveSays(s: Scans, id: string)
    requires Inverse(s)
    ensures var e := Find(s, id);
      e.Some? ==> s.byCluster[s.byID[id]] == e.value && (e.value.stopping ==> e.value.last.phase == "stopping")
  {
  }

  /** While a scan runs and nobody stops it, it shows the last progress its run reported. */
  lemma {:induction false} ShowsLastReport(actions: seq<Action>, id: string, p: Progress, more: seq<Action>)
    requires var w := Play(actions);
      id in w.runs && w.runs[id].phase == Scanning && Find(w.scans, id).Some? && !Find(w.scans, id).value.stopping
    requires forall k :: 0 <= k < |more| ==> !(more[k].Report? && more[k].id == id)
    requires var e := Find(Play(actions + [Report(id, p)] + more).scans, id); e.Some? && !e.value.stopping
    ensures Find(Play(actions + [Report(id, p)] + more).scans, id).value.last == p
    ensures id in Play(actions + [Report(id, p)] + more).runs
    decreases |more|
  {
    hide Play, Act, Inv, Find;
    var all := actions + [Report(id, p)] + more;
    PlayLast(all);
    EveryRun(all[..|all| - 1]);
    if more == [] {
      assert all[..|all| - 1] == actions;
      ReportShows(Play(actions), id, p);
    } else {
      var n := |more| - 1;
      assert all[..|all| - 1] == actions + [Report(id, p)] + more[..n];
      KnownStays(actions, [Report(id, p)] + more[..n], id);
      assert actions + ([Report(id, p)] + more[..n]) == all[..|all| - 1];
      LastStays(Play(all[..|all| - 1]), more[n], id);
      ShowsLastReport(actions, id, p, more[..n]);
    }
  }

  lemma ReportShows(w: World, id: string, p: Progress)
    requires Inv(w) && id in w.runs && w.runs[id].phase == Scanning && Find(w.scans, id).Some? && !Find(w.scans, id).value.stopping
    ensures var v := Act(w, Report(id, p)); id in v.runs && Find(v.scans, id).Some? && Find(v.scans, id).value.last == p
  {
  }

  lemma LastStays(w: World, a: Action, id: string)
    requires Inv(w) && id in w.runs && !(a.Report? && a.id == id)
    requires Find(Act(w, a).scans, id).Some? && !Find(Act(w, a).scans, id).value.stopping
    ensures Find(w.scans, id).Some? && !Find(w.scans, id).value.stopping && id in Act(w, a).runs
    ensures Find(Act(w, a).scans, id).value.last == Find(w.scans, id).value.last
  {
    hide Inverse;
    assert RunOk(w, id);
  }

  lemma {:induction false} KnownStays(actions: seq<Action>, more: seq<Action>, id: string)
    requires id in Play(actions).runs
    ensures id in Play(actions + more).runs
    decreases |more|
  {
    hide Play, Act;
    if more == [] {
      assert actions + more == actions;
    } else {
      var n := |more| - 1;
      KnownStays(actions, more[..n], id);
      PlayLast(actions + more);
      assert (actions + more)[..|actions| + n] == actions + more[..n];
      KnownStep(Play(actions + more[..n]), more[n], id);
    }
  }

  lemma KnownStep(w: World, a: Action, id: string)
    requires id in w.runs
    ensures id in Act(w, a).runs
  {
    hide Begun, Progressed, Stopping, Finished, Find;
  }

  /** What may make a scan end as cancelled. */
  predicate AskedFor(w: World, id: string) {
    || (Find(w.scans, id).Some? && Find(w.scans, id).value.stopping)
    || (id in w.runs && (w.runs[id].phase.Ending? || w.runs[id].phase.Emitting?) && w.runs[id].phase.cancelled)
    || End(id, Cancelled) in w.ends
  }

  /** A scan ends as cancelled only if it was asked to stop. */
  lemma {:induction false} CancelledWasAsked(actions: seq<Action>, id: string)
    ensures AskedFor(Play(actions), id) ==> Stop(id) in actions
  {
    hide Play, Act, Inv, AskedFor;
    PlayLast(actions);
    if actions == [] {
      NobodyAsked(id);
    } else {
      var n := |actions| - 1;
      CancelledWasAsked(actions[..n], id);
      EveryRun(actions[..n]);
      if AskedFor(Act(Play(actions[..n]), actions[n]), id) {
        AskedByStop(Play(actions[..n]), actions[n], id);
      }
      assert actions[n] == Stop(id) ==> Stop(id) in actions;
    }
  }

  lemma NobodyAsked(id: string)
    ensures !AskedFor(IDLE, id)
  {
  }

  lemma AskedByStop(w: World, a: Action, id: string)
    requires Inv(w) && AskedFor(Act(w, a), id)
    ensures AskedFor(w, id) || a == Stop(id)
  {
    hide Begun, Progressed, Stopping, Finished, Find, Inverse;
    assert id in w.runs ==> RunOk(w, id);
    FindKnows(Act(w, a).scans, id);
    match a
    case Start(cluster, x) => if x !in w.runs && cluster !in w.scans.byCluster { BegunKeeps(w.scans, cluster, x, w.next, id); }
    case Report(x, p) => ProgressedKeeps(w.scans, x, p, id);
    case Stop(x) => StoppingKeeps(w.scans, x, id);
    case Finish(x) =>
      if x in w.runs && w.runs[x].phase.Ending? {
        FinishedKeeps(w.scans, x, w.runs[x].tok, id);
        assert RunOk(w, x);
      }
    case _ =>
  }

  lemma {:induction false} EndsStay(actions: seq<Action>, more: seq<Action>, id: string)
    ensures Ends(Play(actions).ends, id) <= Ends(Play(actions + more).ends, id)
  {
    hide Play, Act;
    if more == [] {
      assert actions + more == actions;
    } else {
      var n := |more| - 1;
      EndsStay(actions, more[..n], id);
      assert (actions + more)[..|actions| + n] == actions + more[..n];
      PlayLast(actions + more);
      ActEnds(Play(actions + more[..n]), more[n], id);
    }
  }

  lemma ActEnds(w: World, a: Action, id: string)
    ensures Ends(w.ends, id) <= Ends(Act(w, a).ends, id)
  {
    hide Begun, Progressed, Stopping, Finished, Owned, Find;
    var v := Act(w, a);
    assert v.ends == w.ends || (v.ends != [] && v.ends[..|v.ends| - 1] == w.ends);
  }

  /** A started scan that no stop finds any more: its goroutine has finished, and its end event is out or its next act. */
  lemma FinishedScan(actions: seq<Action>, id: string)
    requires id in Play(actions).runs && Find(Play(actions).scans, id).None?
    ensures var w := Play(actions);
      Ends(w.ends, id) == 1 || (Ends(w.ends, id) == 0 && Ends(Act(w, Emit(id)).ends, id) == 1)
  {
    hide Play;
    EveryRun(actions);
    var w := Play(actions);
    assert RunOk(w, id);
    assert (w.ends + [End(id, Done)])[..|w.ends|] == w.ends;
    if w.runs[id].phase.Emitting? {
      EmitInv(w, id);
      assert RunOk(Act(w, Emit(id)), id);
    }
  }

  /**
   * A stop answers false for a scan that has left the registry. That no end event
   * follows, in any continuation, is true exactly when its end event is already out.
   */
  lemma LateStop(actions: seq<Action>, id: string)
    requires id in Play(actions).runs && Find(Play(actions).scans, id).None?
    ensures (forall more :: Ends(Play(actions + more).ends, id) == Ends(Play(actions).ends, id)) <==> Ends(Play(actions).ends, id) == 1
  {
    hide Play, Act, Ends;
    FinishedScan(actions, id);
    if Ends(Play(actions).ends, id) == 1 {
      forall more ensures Ends(Play(actions + more).ends, id) == 1 {
        EndsStay(actions, more, id);
        AtMostOneEnd(actions + more, id);
      }
    } else {
      var more := [Emit(id)];
      PlayLast(actions + more);
      assert (actions + more)[..|actions|] == actions;
      assert Ends(Play(actions + more).ends, id) == 1;
    }
  }

  lemma AtMostOneEnd(actions: seq<Action>, id: string)
    ensures Ends(Play(actions).ends, id) <= 1
  {
    hide Play, Ends;
    OneEndEvent(actions, id);
  }

  const GAP: seq<Action> := [Start("c", "s"), Return("s", None), Finish("s")]

  /** So "false" from the stop call does not mean that no end event follows: here one does. */
  lemma EndAfterLateStop()
    ensures var w := Play(GAP);
      Find(w.scans, "s").None? && "s" in w.runs && Ends(w.ends, "s") == 0 && Ends(Act(w, Emit("s")).ends, "s") == 1
  {
    hide Inv;
    assert GAP[..0] == [] && GAP[..1][..0] == [] && GAP[..2][..1] == GAP[..1];
    PlayLast(GAP[..1]);
    PlayLast(GAP[..2]);
    PlayLast(GAP);
    FinishedScan(GAP, "s");
  }
}
