// internal/services/portForwardServices.go:260-370,486-553: every interleaving of
// starts, stops and the sessions' own runs, one step for each lock region, channel
// operation and status.

module PortForwardRuns {
  import opened PortForward

  /** Where a session's run is. */
  datatype Place =
    | Dialling          // resolving, dialling or serving
    | Looking           // the tunnel has ended; next is the look at the stop channel
    | Setting(status: Status)
    | Pausing
    | Leaving           // what run defers begins
    | Removing          // not to be kept: pfRemove, its close, and the last status
    | Shutting
    | Closing
    | Gone(kept: bool)

  /**
   * One session. `choice` is what the last look, or the end of a pause, chose; `looked`
   * and `ended` are when that look and the end were, and `extra` counts the turns begun
   * with the stop channel closed.
   */
  datatype Forward = Forward(id: string, reconnect: bool, status: Status, everReady: bool, finished: bool, stopped: bool,
                             attempts: nat, place: Place, choice: Status, looked: nat, ended: nat, extra: nat)

  /** A step of a run. */
  datatype Move = ComesUp | Ends | Panics | Look | Set | Wake(byStop: bool) | Finish | Remove | Shut | Close

  /** A StopPortForward that found session `s`: when it closed the channel, and when it asked whether the run had finished. */
  datatype Call = Call(s: nat, step: CallStep, closed: nat, asked: nat)

  datatype CallStep = Found | Asking | Dismissing | Reclosing | Marking | Over(dismissed: bool)

  datatype World = World(entries: map<string, nat>, forwards: seq<Forward>, calls: seq<Call>, now: nat)

  const IDLE := World(map[], [], [], 1)

  datatype Action =
    | Start(id: string, reconnect: bool)
    | Run(s: nat, move: Move)
    | Stop(id: string)
    | Go(c: nat)        // the next step of that call
    | Expire(s: nat)    // the start timeout, or the shutdown of all forwards, closes the channel

  /** The switch behind a tunnel that ended. */
  function Choice(f: Forward): Status {
    if f.stopped then Closed
    else if !f.everReady || !f.reconnect || f.attempts >= MAX_ATTEMPTS - 1 then Error
    else Reconnecting
  }

  function Moved(f: Forward, m: Move, now: nat): Forward {
    match m
    case ComesUp => if f.place == Dialling then f.(status := Ready, everReady := true) else f
    case Ends => if f.place == Dialling then f.(place := Looking) else f
    case Panics => if f.place == Dialling then f.(place := Leaving) else f
    case Look => if f.place == Looking then f.(place := Setting(Choice(f)), choice := Choice(f), looked := now) else f
    case Set =>
      if f.place.Setting? then
        var st := f.place.status;
        f.(status := st, place := if st == Reconnecting then Pausing else Leaving,
           attempts := if st == Reconnecting then f.attempts + 1 else f.attempts)
      else f
    case Wake(byStop) =>
      if f.place != Pausing then f
      else if !byStop then f.(place := Dialling, extra := f.extra + if f.stopped then 1 else 0)
      else if f.stopped then f.(place := Setting(Closed), choice := Closed)
      else f
    case Finish =>
      if f.place == Leaving then
        f.(finished := true, ended := now, place := if f.status == Error && f.everReady then Gone(true) else Removing)
      else f
    case Remove => if f.place == Removing then f.(place := Shutting) else f
    case Shut => if f.place == Shutting then f.(place := Closing, stopped := true) else f
    case Close => if f.place == Closing then f.(place := Gone(false), status := Closed) else f
  }

  /** By identity: another session under the same id stays. */
  function Dropped(entries: map<string, nat>, id: string, s: nat): map<string, nat> {
    if id in entries && entries[id] == s then entries - {id} else entries
  }

  function Called(w: World, c: nat): World
    requires c < |w.calls|
  {
    var k := w.calls[c];
    if k.s >= |w.forwards| then w
    else
      var f := w.forwards[k.s];
      match k.step
      case Found =>
        w.(forwards := w.forwards[k.s := f.(stopped := true)], calls := w.calls[c := k.(step := Asking, closed := w.now)])
      case Asking =>
        w.(calls := w.calls[c := k.(step := if f.finished then Dismissing else Over(false), asked := w.now)])
      case Dismissing =>
        w.(entries := Dropped(w.entries, f.id, k.s), calls := w.calls[c := k.(step := Reclosing)])
      case Reclosing =>
        w.(forwards := w.forwards[k.s := f.(stopped := true)], calls := w.calls[c := k.(step := Marking)])
      case Marking =>
        w.(forwards := w.forwards[k.s := f.(status := Closed)], calls := w.calls[c := k.(step := Over(true))])
      case Over(_) => w
  }

  function Next(w: World, a: Action): World {
    match a
    case Start(id, reconnect) =>
      if id in w.entries then w
      else w.(entries := w.entries[id := |w.forwards|],
              forwards := w.forwards + [Forward(id, reconnect, Starting, false, false, false, 0, Dialling, Starting, 0, 0, 0)])
    case Run(s, m) =>
      if s >= |w.forwards| then w
      else
        var f := w.forwards[s];
        w.(forwards := w.forwards[s := Moved(f, m, w.now)],
           entries := if m == Remove && f.place == Removing then Dropped(w.entries, f.id, s) else w.entries)
    case Stop(id) => if id in w.entries then w.(calls := w.calls + [Call(w.entries[id], Found, 0, 0)]) else w
    case Go(c) => if c < |w.calls| then Called(w, c) else w
    case Expire(s) => if s < |w.forwards| then w.(forwards := w.forwards[s := w.forwards[s].(stopped := true)]) else w
  }

  function Act(w: World, a: Action): World { Next(w, a).(now := w.now + 1) }

  function Play(actions: seq<Action>): World {
    if actions == [] then IDLE else Act(Play(actions[..|actions| - 1]), actions[|actions| - 1])
  }

  // ---- What every step keeps ----

  predicate Registered(w: World, s: nat) {
    s < |w.forwards| && w.forwards[s].id in w.entries && w.entries[w.forwards[s].id] == s
  }

  /** A run from the flags its own steps set. */
  predicate RunOk(f: Forward, now: nat) {
    && (f.finished <==> f.place in {Removing, Shutting, Closing} || f.place.Gone?)
    && (f.place.Setting? ==> f.choice == f.place.status && f.choice in {Closed, Error, Reconnecting})
    && (f.place in {Dialling, Looking, Pausing} ==> f.choice in {Starting, Reconnecting} && f.status != Closed && f.status != Error)
    && (f.place.Setting? ==> f.status != Closed && f.status != Error)
    && (f.place == Leaving ==> (f.status == Error <==> f.choice == Error))
    && (f.finished ==> (f.place == Gone(true) <==> f.choice == Error && f.everReady))
    && f.looked < now && (f.finished ==> f.ended < now)
  }

  /** A look that finds the channel closed ends the loop, so at most one turn begins after the close. */
  predicate TurnsOk(f: Forward) {
    f.extra <= 1 && (f.extra == 1 ==> f.stopped && f.place != Pausing && f.place != Setting(Reconnecting))
  }

  predicate Dismissed(k: Call) { k.step == Reclosing || k.step == Marking || k.step == Over(true) }

  ghost predicate DismissedRow(w: World, s: nat) { exists c :: 0 <= c < |w.calls| && w.calls[c].s == s && Dismissed(w.calls[c]) }

  /** The row is there until its own run, or a Stop that saw it finished, has removed it. */
  ghost predicate RowOk(w: World, s: nat)
    requires s < |w.forwards|
  {
    var f := w.forwards[s];
    && (!f.finished ==> Registered(w, s))
    && (DismissedRow(w, s) ==> f.finished && !Registered(w, s))
    && (f.place in {Shutting, Closing, Gone(false)} ==> !Registered(w, s))
    && (f.place == Removing || f.place == Gone(true) ==> Registered(w, s) || DismissedRow(w, s))
  }

  predicate CallOk(w: World, k: Call) {
    && k.s < |w.forwards|
    && (k.step != Found ==>
          var f := w.forwards[k.s];
          && f.stopped && k.closed < w.now
          && (f.looked >= k.closed ==> f.choice == Closed))
    && (k.step == Dismissing || Dismissed(k) ==> w.forwards[k.s].finished && w.forwards[k.s].ended < k.asked < w.now)
    && (k.step == Over(false) ==> k.asked < w.now && (w.forwards[k.s].finished ==> k.asked < w.forwards[k.s].ended))
  }

  ghost predicate Inv(w: World) {
    && (forall id :: id in w.entries ==> w.entries[id] < |w.forwards| && w.forwards[w.entries[id]].id == id)
    && (forall s :: 0 <= s < |w.forwards| ==> RunOk(w.forwards[s], w.now) && TurnsOk(w.forwards[s]) && RowOk(w, s))
    && (forall c :: 0 <= c < |w.calls| ==> CallOk(w, w.calls[c])) && w.now > 0
  }

  lemma StartInv(w: World, id: string, reconnect: bool)
    requires Inv(w)
    ensures Inv(Act(w, Start(id, reconnect)))
  {
    hide RunOk, TurnsOk, RowOk, CallOk;
    var v := Act(w, Start(id, reconnect));
    forall s | 0 <= s < |v.forwards| ensures RunOk(v.forwards[s], v.now) && TurnsOk(v.forwards[s]) && RowOk(v, s) {
      if s < |w.forwards| {
        LaterOk(w.forwards[s], w.now);
        StartRow(w, id, reconnect, s);
      } else {
        NewRow(w, id, reconnect);
      }
    }
    forall c | 0 <= c < |v.calls| ensures CallOk(v, v.calls[c]) {
      StartCall(w, id, reconnect, w.calls[c]);
    }
  }

  lemma StartRow(w: World, id: string, reconnect: bool, s: nat)
    requires s < |w.forwards| && RowOk(w, s)
    ensures RowOk(Act(w, Start(id, reconnect)), s)
  {
    SameRows(w, Act(w, Start(id, reconnect)), s);
  }

  lemma NewRow(w: World, id: string, reconnect: bool)
    requires id !in w.entries && w.now > 0 && forall c :: 0 <= c < |w.calls| ==> CallOk(w, w.calls[c])
    ensures var v := Act(w, Start(id, reconnect)); var s := |w.forwards|;
      RunOk(v.forwards[s], v.now) && TurnsOk(v.forwards[s]) && RowOk(v, s)
  {
    assert forall c :: 0 <= c < |w.calls| ==> w.calls[c].s < |w.forwards|;
  }

  lemma StartCall(w: World, id: string, reconnect: bool, k: Call)
    requires CallOk(w, k)
    ensures CallOk(Act(w, Start(id, reconnect)), k)
  {
  }

  lemma StopInv(w: World, id: string)
    requires Inv(w)
    ensures Inv(Act(w, Stop(id)))
  {
    hide RunOk, TurnsOk, RowOk, CallOk;
    var v := Act(w, Stop(id));
    forall s | 0 <= s < |v.forwards| ensures RunOk(v.forwards[s], v.now) && TurnsOk(v.forwards[s]) && RowOk(v, s) {
      LaterOk(w.forwards[s], w.now);
      StopRow(w, id, s);
    }
    forall c | 0 <= c < |v.calls| ensures CallOk(v, v.calls[c]) {
      if c < |w.calls| {
        SameForwards(w, v, w.calls[c]);
      } else {
        FoundOk(v, w.entries[id]);
      }
    }
  }

  lemma StopRow(w: World, id: string, s: nat)
    requires s < |w.forwards| && RowOk(w, s)
    ensures RowOk(Act(w, Stop(id)), s)
  {
    SameRows(w, Act(w, Stop(id)), s);
  }

  lemma FoundOk(w: World, s: nat)
    requires s < |w.forwards|
    ensures CallOk(w, Call(s, Found, 0, 0))
  {
  }

  /** A new call, or a step of one, that is not past its removal dismisses nothing. */
  lemma SameRows(w: World, v: World, s: nat)
    requires |w.calls| <= |v.calls|
    requires forall c :: 0 <= c < |w.calls| ==> w.calls[c].s == v.calls[c].s && (Dismissed(w.calls[c]) <==> Dismissed(v.calls[c]))
    requires forall c :: |w.calls| <= c < |v.calls| ==> !Dismissed(v.calls[c])
    ensures DismissedRow(w, s) <==> DismissedRow(v, s)
  {
    if DismissedRow(w, s) {
      var c :| 0 <= c < |w.calls| && w.calls[c].s == s && Dismissed(w.calls[c]);
      assert v.calls[c].s == s && Dismissed(v.calls[c]);
    }
  }

  /** Closing the channel of `s` changes nothing else. */
  function ChannelClosed(w: World, s: nat): World
    requires s < |w.forwards|
  {
    w.(forwards := w.forwards[s := w.forwards[s].(stopped := true)])
  }

  lemma StoppedOk(f: Forward, now: nat)
    requires RunOk(f, now) && TurnsOk(f)
    ensures RunOk(f.(stopped := true), now) && TurnsOk(f.(stopped := true))
  {
  }

  lemma ChannelClosedInv(w: World, s: nat)
    requires Inv(w) && s < |w.forwards|
    ensures Inv(ChannelClosed(w, s))
  {
    hide RunOk, TurnsOk;
    var v := ChannelClosed(w, s);
    StoppedOk(w.forwards[s], w.now);
    forall x | 0 <= x < |v.forwards| ensures RunOk(v.forwards[x], v.now) && TurnsOk(v.forwards[x]) && RowOk(v, x) {
      assert RunOk(w.forwards[x], w.now) && TurnsOk(w.forwards[x]) && RowOk(w, x);
      SameRows(w, v, x);
    }
    forall c | 0 <= c < |v.calls| ensures CallOk(v, v.calls[c]) {
      assert CallOk(w, w.calls[c]);
    }
  }

  lemma ExpireInv(w: World, s: nat)
    requires Inv(w)
    ensures Inv(Act(w, Expire(s)))
  {
    hide Inv;
    if s < |w.forwards| {
      ChannelClosedInv(w, s);
      IdleInv(ChannelClosed(w, s));
    } else {
      IdleInv(w);
    }
  }

  /** One step of a run: what it makes of its own flags. */
  lemma MovedOk(f: Forward, m: Move, now: nat)
    requires RunOk(f, now) && TurnsOk(f)
    ensures var g := Moved(f, m, now);
      && RunOk(g, now + 1) && TurnsOk(g) && g.id == f.id && (f.finished ==> g.finished && g.ended == f.ended)
      && (f.stopped ==> g.stopped) && (!f.finished && g.finished ==> g.ended == now)
      && (g.looked != f.looked ==> g.looked == now && (f.stopped ==> g.choice == Closed))
      && (g.looked == f.looked && f.choice == Closed ==> g.choice == Closed)
  {
    hide Moved, RunOk, TurnsOk;
    MovedRun(f, m, now);
    MovedTurns(f, m, now);
    MovedMarks(f, m, now);
  }

  lemma MovedRun(f: Forward, m: Move, now: nat)
    requires RunOk(f, now)
    ensures RunOk(Moved(f, m, now), now + 1)
  {
  }

  lemma MovedTurns(f: Forward, m: Move, now: nat)
    requires TurnsOk(f)
    ensures TurnsOk(Moved(f, m, now))
  {
  }

  lemma MovedMarks(f: Forward, m: Move, now: nat)
    requires RunOk(f, now)
    ensures var g := Moved(f, m, now);
      && g.id == f.id && (f.finished ==> g.finished && g.ended == f.ended)
      && (f.stopped ==> g.stopped) && (!f.finished && g.finished ==> g.ended == now)
      && (g.looked != f.looked ==> g.looked == now && (f.stopped ==> g.choice == Closed))
      && (g.looked == f.looked && f.choice == Closed ==> g.choice == Closed)
  {
  }

  lemma RunInv(w: World, s: nat, m: Move)
    requires Inv(w)
    ensures Inv(Act(w, Run(s, m)))
  {
    hide RunOk, TurnsOk, RowOk, CallOk, Moved;
    if s < |w.forwards| {
      var v := Act(w, Run(s, m));
      MovedOk(w.forwards[s], m, w.now);
      forall x | 0 <= x < |v.forwards| ensures RunOk(v.forwards[x], v.now) && TurnsOk(v.forwards[x]) && RowOk(v, x) {
        LaterOk(w.forwards[x], w.now);
        RunRow(w, s, m, x);
      }
      forall c | 0 <= c < |v.calls| ensures CallOk(v, v.calls[c]) {
        RunCall(w, s, m, w.calls[c]);
      }
    } else {
      IdleInv(w);
    }
  }

  lemma RunRow(w: World, s: nat, m: Move, x: nat)
    requires s < |w.forwards| && x < |w.forwards| && RowOk(w, x) && RunOk(w.forwards[s], w.now) && TurnsOk(w.forwards[s])
    ensures RowOk(Act(w, Run(s, m)), x)
  {
    hide RunOk, TurnsOk, Moved;
    var v := Act(w, Run(s, m));
    MovedOk(w.forwards[s], m, w.now);
    MovedRow(w.forwards[s], m, w.now);
    SameRows(w, v, x);
  }

  lemma RunCall(w: World, s: nat, m: Move, k: Call)
    requires s < |w.forwards| && CallOk(w, k) && RunOk(w.forwards[s], w.now) && TurnsOk(w.forwards[s])
    ensures CallOk(Act(w, Run(s, m)), k)
  {
    hide RunOk, TurnsOk, Moved;
    MovedOk(w.forwards[s], m, w.now);
  }

  lemma LaterOk(f: Forward, now: nat)
    requires RunOk(f, now)
    ensures RunOk(f, now + 1)
  {
  }

  lemma MovedRow(f: Forward, m: Move, now: nat)
    requires RunOk(f, now)
    ensures var g := Moved(f, m, now);
      && (g.place == Shutting ==> (m == Remove && f.place == Removing) || f.place == Shutting)
      && (g.place in {Closing, Gone(false)} ==> f.place in {Shutting, Closing, Gone(false)})
      && (g.place in {Removing, Gone(true)} ==> f.place == g.place || !f.finished)
      && (m == Remove && f.place == Removing ==> f.finished && g.place == Shutting)
  {
  }

  lemma IdleInv(w: World)
    requires Inv(w)
    ensures Inv(w.(now := w.now + 1))
  {
    var v := w.(now := w.now + 1);
    forall s | 0 <= s < |v.forwards| ensures RunOk(v.forwards[s], v.now) && RowOk(v, s) {
      assert RunOk(w.forwards[s], w.now) && RowOk(w, s);
      SameRows(w, v, s);
    }
    forall c | 0 <= c < |v.calls| ensures CallOk(v, v.calls[c]) {
      assert CallOk(w, w.calls[c]);
    }
  }

  // ---- The steps of a call ----

  /** A call that goes on to a step with no removal behind it. */
  lemma CallStepInv(w: World, c: nat, k: Call)
    requires Inv(w) && c < |w.calls| && k.s == w.calls[c].s && (Dismissed(k) <==> Dismissed(w.calls[c])) && CallOk(w, k)
    ensures Inv(w.(calls := w.calls[c := k]))
  {
    hide RunOk, TurnsOk, CallOk;
    var v := w.(calls := w.calls[c := k]);
    forall x | 0 <= x < |v.forwards| ensures RunOk(v.forwards[x], v.now) && TurnsOk(v.forwards[x]) && RowOk(v, x) {
      assert RunOk(w.forwards[x], w.now) && TurnsOk(w.forwards[x]) && RowOk(w, x);
      SameRows(w, v, x);
    }
    forall i | 0 <= i < |v.calls| ensures CallOk(v, v.calls[i]) {
      assert CallOk(w, w.calls[i]);
      SameForwards(w, v, v.calls[i]);
    }
  }

  lemma SameForwards(w: World, v: World, k: Call)
    requires w.forwards == v.forwards && w.now <= v.now && CallOk(w, k)
    ensures CallOk(v, k)
  {
  }

  /** The step that removes the row: its session's own, and no other. */
  lemma DismissInv(w: World, c: nat)
    requires Inv(w) && c < |w.calls| && w.calls[c].step == Dismissing
    ensures Inv(Called(w, c))
  {
    hide RunOk, TurnsOk;
    var v, s := Called(w, c), w.calls[c].s;
    assert CallOk(w, w.calls[c]);
    forall x | 0 <= x < |v.forwards| ensures RunOk(v.forwards[x], v.now) && TurnsOk(v.forwards[x]) && RowOk(v, x) {
      assert RunOk(w.forwards[x], w.now) && TurnsOk(w.forwards[x]) && RowOk(w, x);
      if x == s {
        assert v.calls[c].s == s && Dismissed(v.calls[c]);
      } else {
        SameButOne(w, v, c, x);
        assert Registered(v, x) <==> Registered(w, x);
      }
    }
    forall i | 0 <= i < |v.calls| ensures CallOk(v, v.calls[i]) {
      assert CallOk(w, w.calls[i]);
    }
  }

  lemma SameButOne(w: World, v: World, c: nat, s: nat)
    requires |w.calls| == |v.calls| && c < |w.calls| && w.calls[c].s == v.calls[c].s != s
    requires forall i :: 0 <= i < |w.calls| && i != c ==> w.calls[i] == v.calls[i]
    ensures DismissedRow(w, s) <==> DismissedRow(v, s)
  {
    if DismissedRow(w, s) {
      var i :| 0 <= i < |w.calls| && w.calls[i].s == s && Dismissed(w.calls[i]);
      assert v.calls[i] == w.calls[i];
    }
    if DismissedRow(v, s) {
      var i :| 0 <= i < |v.calls| && v.calls[i].s == s && Dismissed(v.calls[i]);
      assert v.calls[i] == w.calls[i];
    }
  }

  /** The last status of a dismissed row. */
  lemma MarkInv(w: World, s: nat)
    requires Inv(w) && s < |w.forwards| && w.forwards[s].finished
    ensures Inv(w.(forwards := w.forwards[s := w.forwards[s].(status := Closed)]))
  {
    var v := w.(forwards := w.forwards[s := w.forwards[s].(status := Closed)]);
    forall x | 0 <= x < |v.forwards| ensures RunOk(v.forwards[x], v.now) && TurnsOk(v.forwards[x]) && RowOk(v, x) {
      assert RunOk(w.forwards[x], w.now) && TurnsOk(w.forwards[x]) && RowOk(w, x);
      SameRows(w, v, x);
    }
    forall c | 0 <= c < |v.calls| ensures CallOk(v, v.calls[c]) {
      assert CallOk(w, w.calls[c]);
    }
  }

  lemma GoInv(w: World, c: nat)
    requires Inv(w)
    ensures Inv(Act(w, Go(c)))
  {
    hide RunOk, TurnsOk, RowOk;
    IdleInv(w);
    if c < |w.calls| {
      var k, u := w.calls[c], w.(now := w.now + 1);
      var s := k.s;
      assert CallOk(w, k) && RunOk(w.forwards[s], w.now);
      EndedBefore(w.forwards[s], w.now);
      match k.step {
        case Found =>
          ChannelClosedInv(u, s);
          CallStepInv(ChannelClosed(u, s), c, k.(step := Asking, closed := w.now));
        case Asking =>
          CallStepInv(u, c, k.(step := if w.forwards[s].finished then Dismissing else Over(false), asked := w.now));
        case Dismissing =>
          DismissInv(u, c);
        case Reclosing =>
          ChannelClosedInv(u, s);
          CallStepInv(ChannelClosed(u, s), c, k.(step := Marking));
        case Marking =>
          MarkInv(u, s);
          CallStepInv(u.(forwards := u.forwards[s := u.forwards[s].(status := Closed)]), c, k.(step := Over(true)));
        case Over(_) =>
      }
    }
  }

  lemma EndedBefore(f: Forward, now: nat)
    requires RunOk(f, now)
    ensures (f.finished ==> f.ended < now) && f.looked < now
  {
  }

  lemma ActInv(w: World, a: Action)
    requires Inv(w)
    ensures Inv(Act(w, a))
  {
    hide Inv, Act;
    match a
    case Start(id, reconnect) => StartInv(w, id, reconnect);
    case Run(s, m) => RunInv(w, s, m);
    case Stop(id) => StopInv(w, id);
    case Go(c) => GoInv(w, c);
    case Expire(s) => ExpireInv(w, s);
  }

  lemma {:induction false} EveryRun(actions: seq<Action>)
    ensures Inv(Play(actions))
    decreases |actions|
  {
    hide Inv, Act;
    if actions == [] {
      IdleOk();
    } else {
      EveryRun(actions[..|actions| - 1]);
      ActInv(Play(actions[..|actions| - 1]), actions[|actions| - 1]);
    }
  }

  lemma IdleOk()
    ensures Inv(IDLE)
  {
  }

  // ---- What follows, over every interleaving ----

  /** A session whose run has not finished is the one under its id, so it can be found and stopped. */
  lemma LiveIsRegistered(actions: seq<Action>, s: nat)
    requires var w := Play(actions); s < |w.forwards| && !w.forwards[s].finished
    ensures Registered(Play(actions), s)
  {
    hide Play;
    EveryRun(actions);
    assert RowOk(Play(actions), s);
  }

  /** A session stops being registered only by its own run's removal, or that of a Stop that found it; and only when it has finished. */
  lemma OnlyItsOwnRemoval(actions: seq<Action>, a: Action, s: nat)
    requires var w := Play(actions); Registered(w, s) && !Registered(Act(w, a), s)
    ensures var w := Play(actions);
      && w.forwards[s].finished
      && (a == Run(s, Remove) || (a.Go? && a.c < |w.calls| && w.calls[a.c].s == s && w.calls[a.c].step == Dismissing))
  {
    hide Play, Registered, Act, RunOk;
    EveryRun(actions);
    var w := Play(actions);
    RemovalStep(w, a, s);
    if a.Go? {
      assert CallOk(w, w.calls[a.c]);
    } else {
      RemovingIsFinished(w, s);
    }
  }

  lemma RemovingIsFinished(w: World, s: nat)
    requires Inv(w) && s < |w.forwards| && w.forwards[s].place == Removing
    ensures w.forwards[s].finished
  {
    assert RunOk(w.forwards[s], w.now);
  }

  lemma RemovalStep(w: World, a: Action, s: nat)
    requires Registered(w, s) && !Registered(Act(w, a), s)
    ensures s < |w.forwards|
    ensures (a == Run(s, Remove) && w.forwards[s].place == Removing)
         || (a.Go? && a.c < |w.calls| && w.calls[a.c].s == s && w.calls[a.c].step == Dismissing)
  {
    match a
    case Start(_, _) =>
    case Run(_, m) => MovedKeepsId(w.forwards[s], m, w.now);
    case Stop(_) =>
    case Go(_) =>
    case Expire(_) =>
  }

  lemma MovedKeepsId(f: Forward, m: Move, now: nat)
    ensures Moved(f, m, now).id == f.id
  {
  }

  /** Once its status says closed it does in every continuation. */
  lemma {:induction false} ClosedForGood(actions: seq<Action>, more: seq<Action>, s: nat)
    requires var w := Play(actions); s < |w.forwards| && w.forwards[s].status == Closed
    ensures var w := Play(actions + more); s < |w.forwards| && w.forwards[s].status == Closed
    decreases |more|
  {
    hide Act;
    if more == [] {
      assert actions + more == actions;
    } else {
      var m := |more| - 1;
      ClosedForGood(actions, more[..m], s);
      assert (actions + more)[..|actions + more| - 1] == actions + more[..m];
      EveryRun(actions + more[..m]);
      ClosedStep(Play(actions + more[..m]), more[m], s);
    }
  }

  lemma ClosedStep(w: World, a: Action, s: nat)
    requires Inv(w) && s < |w.forwards| && w.forwards[s].status == Closed
    ensures var v := Act(w, a); s < |v.forwards| && v.forwards[s].status == Closed
  {
    hide Moved, RunOk, RowOk, CallOk;
    if a.Run? {
      MovedClosed(w.forwards[s], a.move, w.now);
    }
  }

  lemma MovedClosed(f: Forward, m: Move, now: nat)
    requires RunOk(f, now) && f.status == Closed
    ensures Moved(f, m, now).status == Closed
  {
  }

  /** However the pauses and stops fall, at most one turn begins after the channel was closed. */
  lemma OneMoreTurn(actions: seq<Action>, s: nat)
    requires s < |Play(actions).forwards|
    ensures Play(actions).forwards[s].extra <= 1
  {
    hide Play;
    EveryRun(actions);
    assert TurnsOk(Play(actions).forwards[s]);
  }

  /** Action `k` begins a turn of the session although its channel is closed. */
  predicate LateTurn(actions: seq<Action>, s: nat, k: nat) {
    && k < |actions| && actions[k] == Run(s, Wake(false))
    && var w := Play(actions[..k]); s < |w.forwards| && w.forwards[s].place == Pausing && w.forwards[s].stopped
  }

  /** Of all the turns of a session no two are. */
  lemma OneLateTurn(actions: seq<Action>, s: nat, j: nat, k: nat)
    requires LateTurn(actions, s, j) && LateTurn(actions, s, k)
    ensures j == k
  {
    hide Play, Act;
    if j < k {
      LateTurnsApart(actions, s, j, k);
    } else if k < j {
      LateTurnsApart(actions, s, k, j);
    }
  }

  lemma LateTurnsApart(actions: seq<Action>, s: nat, j: nat, k: nat)
    requires LateTurn(actions, s, j) && k < |actions| && j < k
    ensures !LateTurn(actions, s, k)
  {
    hide Play, Act;
    PlayedOn(actions[..j], actions[j]);
    assert actions[..j] + [actions[j]] == actions[..j + 1];
    LateTurnCounts(Play(actions[..j]), s);
    ExtraGrows(actions[..j + 1], actions[j + 1..k], s);
    assert actions[..j + 1] + actions[j + 1..k] == actions[..k];
    EveryRun(actions[..k]);
    assert TurnsOk(Play(actions[..k]).forwards[s]);
  }

  lemma LateTurnCounts(w: World, s: nat)
    requires s < |w.forwards| && w.forwards[s].place == Pausing && w.forwards[s].stopped
    ensures var v := Act(w, Run(s, Wake(false))); s < |v.forwards| && v.forwards[s].extra > 0
  {
  }

  lemma {:induction false} ExtraGrows(actions: seq<Action>, more: seq<Action>, s: nat)
    requires s < |Play(actions).forwards|
    ensures var w := Play(actions + more); s < |w.forwards| && w.forwards[s].extra >= Play(actions).forwards[s].extra
    decreases |more|
  {
    hide Play, Act;
    if more == [] {
      assert actions + more == actions;
    } else {
      var m := |more| - 1;
      ExtraGrows(actions, more[..m], s);
      PlayedOn(actions + more[..m], more[m]);
      assert actions + more[..m] + [more[m]] == actions + more;
      ExtraStays(Play(actions + more[..m]), more[m], s);
    }
  }

  lemma ExtraStays(w: World, a: Action, s: nat)
    requires s < |w.forwards|
    ensures var v := Act(w, a); s < |v.forwards| && v.forwards[s].extra >= w.forwards[s].extra
  {
  }

  /** The run is over; every Stop that found the session is, too. */
  predicate Quiet(w: World, s: nat) {
    && s < |w.forwards| && w.forwards[s].place.Gone?
    && forall c :: 0 <= c < |w.calls| && w.calls[c].s == s ==> w.calls[c].step.Over?
  }

  /** A Stop between the two: it closes the channel behind the run's last look, and asks before the run has finished. */
  predicate Slipped(f: Forward, k: Call) { f.looked < k.closed && k.asked < f.ended }

  /**
   * When all is quiet a Stop has left the row it found behind if and only if the run ended in
   * error after it had been ready, and every Stop that found it slipped between the run's last
   * look at the channel and its end.
   */
  lemma StopLeavesRowIff(actions: seq<Action>, s: nat)
    requires Quiet(Play(actions), s)
    ensures var w := Play(actions); var f := w.forwards[s];
      Registered(w, s) <==>
        f.choice == Error && f.everReady && forall c :: 0 <= c < |w.calls| && w.calls[c].s == s ==> Slipped(f, w.calls[c])
  {
    hide Play;
    EveryRun(actions);
    var w := Play(actions);
    var f := w.forwards[s];
    assert RunOk(f, w.now) && RowOk(w, s);
    forall c | 0 <= c < |w.calls| && w.calls[c].s == s && f.choice == Error
      ensures Slipped(f, w.calls[c]) <==> w.calls[c].step == Over(false)
    {
      assert CallOk(w, w.calls[c]);
    }
    if f.choice == Error && f.everReady && !Registered(w, s) {
      assert DismissedRow(w, s);
    }
  }

  /** A world of one session and one call. */
  function One(f: Forward, calls: seq<Call>, now: nat): World {
    World(map["a" := 0], [f], calls, now)
  }

  lemma OneMoves(f: Forward, calls: seq<Call>, now: nat, m: Move)
    ensures f.place != Removing ==> Act(One(f, calls, now), Run(0, m)) == One(Moved(f, m, now), calls, now + 1)
  {
    hide Moved;
  }

  const FIRST := [Start("a", false), Run(0, ComesUp), Run(0, Ends), Run(0, Look)]
  const WHILE := [Stop("a"), Go(0), Go(0)]
  const LAST := [Run(0, Set), Run(0, Finish)]

  /** Up to the look, which finds the channel open. */
  lemma UpToTheLook()
    ensures Play(FIRST) == One(Forward("a", false, Ready, true, false, false, 0, Setting(Error), Error, 4, 0, 0), [], 5)
  {
    hide Act;
    PlayedOn([], FIRST[0]);
    PlayedOn([FIRST[0]], FIRST[1]);
    PlayedOn([FIRST[0], FIRST[1]], FIRST[2]);
    PlayedOn([FIRST[0], FIRST[1], FIRST[2]], FIRST[3]);
    assert [] + [FIRST[0]] == [FIRST[0]] && [FIRST[0], FIRST[1], FIRST[2]] + [FIRST[3]] == FIRST;
    assert [FIRST[0]] + [FIRST[1]] == [FIRST[0], FIRST[1]];
    assert [FIRST[0], FIRST[1]] + [FIRST[2]] == [FIRST[0], FIRST[1], FIRST[2]];
    var f := Forward("a", false, Starting, false, false, false, 0, Dialling, Starting, 0, 0, 0);
    Begun(f);
    OneMoves(f, [], 2, ComesUp);
    var g := f.(status := Ready, everReady := true);
    OneMoves(g, [], 3, Ends);
    OneMoves(g.(place := Looking), [], 4, Look);
  }

  lemma Begun(f: Forward)
    requires f == Forward("a", false, Starting, false, false, false, 0, Dialling, Starting, 0, 0, 0)
    ensures Act(IDLE, Start("a", false)) == One(f, [], 2)
  {
    assert map["a" := 0] == map[]["a" := 0];
  }

  /** The whole of a Stop. */
  lemma MeanwhileStopped(f: Forward)
    requires !f.finished && f.id == "a"
    ensures Act(Act(Act(One(f, [], 5), Stop("a")), Go(0)), Go(0)) == One(f.(stopped := true), [Call(0, Over(false), 6, 7)], 8)
  {
    var w1 := Act(One(f, [], 5), Stop("a"));
    assert w1 == One(f, [Call(0, Found, 0, 0)], 6);
    var w2 := Act(w1, Go(0));
    assert w2 == One(f.(stopped := true), [Call(0, Asking, 6, 0)], 7);
  }

  /** One Stop, answered without an error, behind which the row stays. */
  lemma StopLeavesRow()
    ensures var w := Play(FIRST + WHILE + LAST);
      Quiet(w, 0) && |w.calls| == 1 && w.calls[0].s == 0 && Registered(w, 0) && w.forwards[0].status == Error
  {
    hide Act;
    UpToTheLook();
    var f := Forward("a", false, Ready, true, false, false, 0, Setting(Error), Error, 4, 0, 0);
    var a := FIRST;
    PlayedOn(a, WHILE[0]);
    PlayedOn(a + [WHILE[0]], WHILE[1]);
    PlayedOn(a + [WHILE[0]] + [WHILE[1]], WHILE[2]);
    MeanwhileStopped(f);
    assert a + WHILE == a + [WHILE[0]] + [WHILE[1]] + [WHILE[2]];
    PlayedOn(a + WHILE, LAST[0]);
    PlayedOn(a + WHILE + [LAST[0]], LAST[1]);
    assert a + WHILE + LAST == a + WHILE + [LAST[0]] + [LAST[1]];
    var g, calls := f.(stopped := true), [Call(0, Over(false), 6, 7)];
    OneMoves(g, calls, 8, Set);
    OneMoves(g.(status := Error, place := Leaving), calls, 9, Finish);
  }

  lemma PlayedOn(actions: seq<Action>, a: Action)
    ensures Play(actions + [a]) == Act(Play(actions), a)
  {
    assert (actions + [a])[..|actions|] == actions;
  }
}
