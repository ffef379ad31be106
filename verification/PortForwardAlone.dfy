// internal/services/portForwardServices.go:290-370,486-503: the steps of one run, and of
// one Stop, with nobody between them do what the run and the Stop on their own do.

module PortForwardAlone {
  import opened PortForward
  import opened PortForwardRuns

  /** A step of the run, or a close of its channel by somebody else. */
  datatype Deed = Step(move: Move) | CloseIt

  function Deeds(f: Forward, ds: seq<Deed>, now: nat): Forward
    decreases |ds|
  {
    if ds == [] then f
    else Deeds(if ds[0].Step? then Moved(f, ds[0].move, now) else f.(stopped := true), ds[1..], now + 1)
  }

  /** What happens in one turn of the loop. */
  function TurnDeeds(a: Attempt): seq<Deed> {
    (if CameUp(a) then [Step(ComesUp)] else [])
    + if PortForward.Panics(a) then [Step(Move.Panics)]
      else [Step(Ends)] + (if a.stopped then [CloseIt] else []) + [Step(Look), Step(Set)]
           + if a.interrupted then [CloseIt, Step(Wake(true)), Step(Set)] else [Step(Wake(false))]
  }

  lemma DeedsOn(f: Forward, ds: seq<Deed>, now: nat)
    requires ds != []
    ensures Deeds(f, ds, now) == Deeds(if ds[0].Step? then Moved(f, ds[0].move, now) else f.(stopped := true), ds[1..], now + 1)
  {
  }

  lemma {:induction false} DeedsThen(f: Forward, a: seq<Deed>, b: seq<Deed>, now: nat)
    ensures Deeds(f, a + b, now) == Deeds(Deeds(f, a, now), b, now + |a|)
    decreases |a|
  {
    hide Moved;
    if a == [] {
      assert a + b == b;
    } else {
      assert (a + b)[0] == a[0] && (a + b)[1..] == a[1..] + b;
      DeedsThen(if a[0].Step? then Moved(f, a[0].move, now) else f.(stopped := true), a[1..], b, now + 1);
    }
  }

  /** Turn `n` is about to begin. */
  predicate AtTurn(f: Forward, n: nat) {
    f.place == Dialling && !f.stopped && !f.finished && f.attempts == n && f.status != Error && f.status != Closed && f.choice != Error
  }

  /** The loop is over, with this status. */
  predicate LeftWith(f: Forward, error: bool) {
    f.place == Leaving && !f.finished && (if error then f.status == Error else f.status != Error)
  }

  /** The first half of a turn. */
  lemma ComesUpOrNot(f: Forward, a: Attempt, n: nat, now: nat)
    requires AtTurn(f, n)
    ensures var ds := if CameUp(a) then [Step(ComesUp)] else [];
      var g := Deeds(f, ds, now); AtTurn(g, n) && g.everReady == (f.everReady || CameUp(a)) && g.reconnect == f.reconnect && g.id == f.id
  {
    if CameUp(a) {
      DeedsOn(f, [Step(ComesUp)], now);
    }
  }

  /** And the second, up to the status the switch chose. */
  lemma EndsAndLooks(f: Forward, stopped: bool, n: nat, now: nat)
    requires AtTurn(f, n)
    ensures var ds := [Step(Ends)] + (if stopped then [CloseIt] else []) + [Step(Look), Step(Set)];
      var g := Deeds(f, ds, now);
      && g.everReady == f.everReady && g.reconnect == f.reconnect && g.id == f.id && !g.finished && g.stopped == stopped
      && (if stopped then g.place == Leaving && g.status == Closed && g.attempts == n
          else if !f.everReady || !f.reconnect || n >= MAX_ATTEMPTS - 1 then g.place == Leaving && g.status == Error && g.attempts == n
          else g.place == Pausing && g.status == Reconnecting && g.attempts == n + 1 && g.choice == Reconnecting)
  {
    var f1 := Moved(f, Ends, now);
    if stopped {
      var ds := [Step(Ends), CloseIt, Step(Look), Step(Set)];
      assert [Step(Ends)] + [CloseIt] + [Step(Look), Step(Set)] == ds;
      DeedsOn(f, ds, now);
      DeedsOn(f1, ds[1..], now + 1);
      LookAndSet(f1.(stopped := true), now + 2);
      assert ds[1..][1..] == [Step(Look), Step(Set)];
    } else {
      var ds := [Step(Ends), Step(Look), Step(Set)];
      assert [Step(Ends)] + [] + [Step(Look), Step(Set)] == ds;
      DeedsOn(f, ds, now);
      LookAndSet(f1, now + 1);
      assert ds[1..] == [Step(Look), Step(Set)];
    }
  }

  lemma LookAndSet(f: Forward, now: nat)
    requires f.place == Looking
    ensures var c := Choice(f);
      Deeds(f, [Step(Look), Step(Set)], now) ==
        f.(looked := now, choice := c, status := c, place := if c == Reconnecting then Pausing else Leaving,
           attempts := if c == Reconnecting then f.attempts + 1 else f.attempts)
  {
    var ds := [Step(Look), Step(Set)];
    DeedsOn(f, ds, now);
    DeedsOn(Moved(f, Look, now), ds[1..], now + 1);
    assert ds[1..][1..] == [];
  }

  lemma Pauses(f: Forward, interrupted: bool, now: nat)
    requires f.place == Pausing && !f.finished && !f.stopped && f.choice == Reconnecting && f.status == Reconnecting
    ensures var g := Deeds(f, if interrupted then [CloseIt, Step(Wake(true)), Step(Set)] else [Step(Wake(false))], now);
      && g.everReady == f.everReady && g.reconnect == f.reconnect && g.id == f.id
      && if interrupted then LeftWith(g, false) && g.status == Closed else AtTurn(g, f.attempts)
  {
    if interrupted {
      var ds := [CloseIt, Step(Wake(true)), Step(Set)];
      DeedsOn(f, ds, now);
      var f1 := f.(stopped := true);
      DeedsOn(f1, ds[1..], now + 1);
      var f2 := Moved(f1, Wake(true), now + 1);
      DeedsOn(f2, ds[1..][1..], now + 2);
      assert ds[1..][1..][1..] == [];
    } else {
      DeedsOn(f, [Step(Wake(false))], now);
    }
  }

  /** What leaves the loop stays there. */
  lemma LeavingStays(f: Forward, interrupted: bool, now: nat)
    requires f.place == Leaving
    ensures var g := Deeds(f, if interrupted then [CloseIt, Step(Wake(true)), Step(Set)] else [Step(Wake(false))], now);
      g == f.(stopped := g.stopped)
  {
    if interrupted {
      var ds := [CloseIt, Step(Wake(true)), Step(Set)];
      DeedsOn(f, ds, now);
      var f1 := f.(stopped := true);
      DeedsOn(f1, ds[1..], now + 1);
      DeedsOn(f1, ds[1..][1..], now + 2);
      assert ds[1..][1..][1..] == [];
    } else {
      DeedsOn(f, [Step(Wake(false))], now);
    }
  }

  /** One turn: it goes on, or the loop is left with an error or without. */
  lemma TurnAlone(f: Forward, env: nat -> Attempt, n: nat, now: nat)
    requires AtTurn(f, n) && n < MAX_ATTEMPTS && f.everReady == (n > 0 && CameUp(env(0))) && (n > 0 ==> CameUp(env(0)))
    ensures var g := Deeds(f, TurnDeeds(env(n)), now);
      && g.everReady == CameUp(env(0)) && g.reconnect == f.reconnect && g.id == f.id
      && if GoesOn(env, f.reconnect, n) then AtTurn(g, n + 1)
         else LeftWith(g, (EndsInError(env, f.reconnect, n) || (!CameUp(env(0)) && !PortForward.Panics(env(n)) && !env(n).stopped)))
  {
    hide Deeds, Moved, CameUp, PortForward.Panics;
    var a := env(n);
    var up := if CameUp(a) then [Step(ComesUp)] else [];
    ComesUpOrNot(f, a, n, now);
    var f1 := Deeds(f, up, now);
    if PortForward.Panics(a) {
      DeedsThen(f, up, [Step(Move.Panics)], now);
      PanicsAlone(f1, n, now + |up|);
    } else {
      var looks := [Step(Ends)] + (if a.stopped then [CloseIt] else []) + [Step(Look), Step(Set)];
      var rest := if a.interrupted then [CloseIt, Step(Wake(true)), Step(Set)] else [Step(Wake(false))];
      assert TurnDeeds(a) == up + (looks + rest);
      DeedsThen(f, up, looks + rest, now);
      DeedsThen(f1, looks, rest, now + |up|);
      EndsAndLooks(f1, a.stopped, n, now + |up|);
      var f2 := Deeds(f1, looks, now + |up|);
      if f2.place == Leaving {
        LeavingStays(f2, a.interrupted, now + |up| + |looks|);
      } else {
        Pauses(f2, a.interrupted, now + |up| + |looks|);
      }
    }
  }

  lemma PanicsAlone(f: Forward, n: nat, now: nat)
    requires AtTurn(f, n)
    ensures var g := Deeds(f, [Step(Move.Panics)], now);
      LeftWith(g, false) && g.everReady == f.everReady && g.reconnect == f.reconnect && g.id == f.id
  {
    DeedsOn(f, [Step(Move.Panics)], now);
  }

  /** The turns of a run, one after the other. */
  function RunDeeds(env: nat -> Attempt, n: nat): seq<Deed> {
    if n == 0 then [] else RunDeeds(env, n - 1) + TurnDeeds(env(n - 1))
  }

  lemma {:induction false} TurnsAlone(f: Forward, env: nat -> Attempt, n: nat, now: nat)
    requires AtTurn(f, 0) && !f.everReady && n < MAX_ATTEMPTS && forall k :: 0 <= k < n ==> GoesOn(env, f.reconnect, k)
    ensures var g := Deeds(f, RunDeeds(env, n), now);
      AtTurn(g, n) && g.everReady == (n > 0 && CameUp(env(0))) && g.reconnect == f.reconnect && g.id == f.id && (n > 0 ==> CameUp(env(0)))
  {
    hide Deeds, TurnDeeds, CameUp;
    if n > 0 {
      TurnsAlone(f, env, n - 1, now);
      DeedsThen(f, RunDeeds(env, n - 1), TurnDeeds(env(n - 1)), now);
      assert GoesOn(env, f.reconnect, n - 1);
      TurnAlone(Deeds(f, RunDeeds(env, n - 1), now), env, n - 1, now + |RunDeeds(env, n - 1)|);
    } else {
      NoDeeds(f, now);
    }
  }

  lemma NoDeeds(f: Forward, now: nat)
    ensures Deeds(f, [], now) == f
  {
  }

  const LAST := [Step(Finish), Step(Remove), Step(Shut), Step(Close)]

  lemma EndAlone(f: Forward, error: bool, now: nat)
    requires LeftWith(f, error)
    ensures var g := Deeds(f, LAST, now);
      && g.place == Gone(error && f.everReady) && g.finished && g.everReady == f.everReady
      && (if error && f.everReady then g.status == Error && g.stopped == f.stopped else g.status == Closed && g.stopped)
  {
    hide Moved;
    var a, b := [Step(Finish), Step(Remove)], [Step(Shut), Step(Close)];
    assert LAST == a + b;
    DeedsThen(f, a, b, now);
    Two(f, Finish, Remove, now);
    Two(Deeds(f, a, now), Shut, Close, now + 2);
    EndMoves(f, now);
  }

  lemma Two(f: Forward, m: Move, o: Move, now: nat)
    ensures Deeds(f, [Step(m), Step(o)], now) == Moved(Moved(f, m, now), o, now + 1)
  {
    hide Moved;
    DeedsOn(f, [Step(m), Step(o)], now);
    DeedsOn(Moved(f, m, now), [Step(o)], now + 1);
    assert [Step(m), Step(o)][1..] == [Step(o)] && [Step(o)][1..] == [];
  }

  lemma EndMoves(f: Forward, now: nat)
    requires f.place == Leaving
    ensures var g := Moved(Moved(Moved(Moved(f, Finish, now), Remove, now + 1), Shut, now + 2), Close, now + 3);
      var kept := f.status == Error && f.everReady;
      && g.place == Gone(kept) && g.finished && g.everReady == f.everReady
      && (if kept then g.status == f.status && g.stopped == f.stopped else g.status == Closed && g.stopped)
  {
  }

  /**
   * A run whose turns go as the environment says, the first `n - 1` of them going on and
   * the last not, ends as Session.Run does: kept in error exactly where that keeps its
   * row, and otherwise closed with its channel.
   */
  lemma RunAlone(f: Forward, env: nat -> Attempt, n: nat, now: nat)
    requires AtTurn(f, 0) && !f.everReady && 1 <= n <= MAX_ATTEMPTS
    requires (forall k :: 0 <= k < n - 1 ==> GoesOn(env, f.reconnect, k)) && !GoesOn(env, f.reconnect, n - 1)
    ensures var g := Deeds(f, RunDeeds(env, n) + LAST, now);
      var kept := EndsInError(env, f.reconnect, n - 1);
      g.place == Gone(kept) && g.finished && g.everReady == CameUp(env(0)) && (if kept then g.status == Error else g.status == Closed && g.stopped)
  {
    hide Deeds, TurnDeeds, CameUp, GoesOn, PortForward.Panics, RunDeeds;
    TurnsAlone(f, env, n - 1, now);
    LastTurn(env, n);
    var before := RunDeeds(env, n - 1);
    DeedsThen(f, before, TurnDeeds(env(n - 1)), now);
    var f1 := Deeds(f, before, now);
    TurnAlone(f1, env, n - 1, now + |before|);
    DeedsThen(f, RunDeeds(env, n), LAST, now);
    var f2 := Deeds(f, RunDeeds(env, n), now);
    EndAlone(f2, f2.status == Error, now + |RunDeeds(env, n)|);
  }

  lemma LastTurn(env: nat -> Attempt, n: nat)
    requires n > 0
    ensures RunDeeds(env, n) == RunDeeds(env, n - 1) + TurnDeeds(env(n - 1))
  {
  }

  // ---- In the world of all sessions ----

  function ActionOf(s: nat, d: Deed): Action { if d.Step? then Run(s, d.move) else Expire(s) }

  function PlayOn(w: World, s: nat, ds: seq<Deed>): World
    decreases |ds|
  {
    if ds == [] then w else PlayOn(Act(w, ActionOf(s, ds[0])), s, ds[1..])
  }

  /** The run's own removal is behind it. */
  predicate HasLeft(f: Forward) { f.place == Shutting || f.place == Closing || f.place == Gone(false) }

  lemma DeedInWorld(w: World, s: nat, d: Deed)
    requires s < |w.forwards| && (PortForwardRuns.Registered(w, s) <==> !HasLeft(w.forwards[s]))
    ensures var v, f := Act(w, ActionOf(s, d)), w.forwards[s];
      && v.forwards == w.forwards[s := if d.Step? then Moved(f, d.move, w.now) else f.(stopped := true)]
      && v.now == w.now + 1 && v.calls == w.calls
      && (PortForwardRuns.Registered(v, s) <==> !HasLeft(v.forwards[s]))
      && v.entries == (if PortForwardRuns.Registered(w, s) && !PortForwardRuns.Registered(v, s) then w.entries - {f.id} else w.entries)
  {
  }

  /** With nobody else moving a session's deeds change itself, and its row goes exactly when its run removes it. */
  lemma {:induction false} DeedsInWorld(w: World, s: nat, ds: seq<Deed>)
    requires s < |w.forwards| && (PortForwardRuns.Registered(w, s) <==> !HasLeft(w.forwards[s]))
    ensures var v, f := PlayOn(w, s, ds), w.forwards[s];
      && v.forwards == w.forwards[s := Deeds(f, ds, w.now)] && v.calls == w.calls && v.forwards[s].id == f.id
      && (PortForwardRuns.Registered(v, s) <==> !HasLeft(v.forwards[s]))
      && v.entries == (if PortForwardRuns.Registered(w, s) && !PortForwardRuns.Registered(v, s) then w.entries - {f.id} else w.entries)
    decreases |ds|
  {
    hide Act, Moved, HasLeft;
    if ds != [] {
      DeedInWorld(w, s, ds[0]);
      DeedsInWorld(Act(w, ActionOf(s, ds[0])), s, ds[1..]);
      IdStays(w.forwards[s], ds[0], w.now);
    } else {
      assert w.forwards == w.forwards[s := w.forwards[s]];
    }
  }

  lemma IdStays(f: Forward, d: Deed, now: nat)
    ensures (if d.Step? then Moved(f, d.move, now) else f.(stopped := true)).id == f.id
  {
  }

  /**
   * A forward started under a free id, its run alone, leaves its row exactly when it is
   * kept in error; otherwise the registry is as before and the status says closed.
   */
  lemma StartedAndRun(w: World, id: string, reconnect: bool, env: nat -> Attempt, n: nat)
    requires id !in w.entries && 1 <= n <= MAX_ATTEMPTS
    requires (forall k :: 0 <= k < n - 1 ==> GoesOn(env, reconnect, k)) && !GoesOn(env, reconnect, n - 1)
    ensures var s := |w.forwards|;
      var v := PlayOn(Act(w, Start(id, reconnect)), s, RunDeeds(env, n) + LAST);
      var kept := EndsInError(env, reconnect, n - 1);
      && |v.forwards| == s + 1 && v.forwards[..s] == w.forwards && v.calls == w.calls
      && v.entries == (if kept then w.entries[id := s] else w.entries)
      && v.forwards[s].status == (if kept then Error else Closed) && v.forwards[s].everReady == CameUp(env(0))
  {
    hide Deeds, RunDeeds, CameUp, GoesOn, EndsInError, Moved;
    var s, w1 := |w.forwards|, Act(w, Start(id, reconnect));
    var f := w1.forwards[s];
    RunAlone(f, env, n, w1.now);
    DeedsInWorld(w1, s, RunDeeds(env, n) + LAST);
    var v := PlayOn(w1, s, RunDeeds(env, n) + LAST);
    assert w1.forwards[s := v.forwards[s]][..s] == w.forwards;
    assert w.entries[id := s] - {id} == w.entries;
  }

  /** A Stop with nobody in between: the channel of the session under the id closes, and a row whose run has ended goes. */
  lemma StopAlone(w: World, id: string)
    requires Inv(w) && id in w.entries
    ensures var s, c := w.entries[id], |w.calls|;
      var f := w.forwards[s];
      var v := Act(Act(Act(Act(Act(Act(w, Stop(id)), Go(c)), Go(c)), Go(c)), Go(c)), Go(c));
      && |v.calls| == c + 1 && v.calls[..c] == w.calls && v.calls[c].s == s && v.calls[c].step == Over(f.finished)
      && v.entries == (if f.finished then w.entries - {id} else w.entries)
      && v.forwards == w.forwards[s := if f.finished then f.(stopped := true, status := Closed) else f.(stopped := true)]
  {
    var s, c := w.entries[id], |w.calls|;
    var f := w.forwards[s];
    var w1 := Act(w, Stop(id));
    assert w1.calls[c] == Call(s, Found, 0, 0);
    var w2 := Act(w1, Go(c));
    assert w2.forwards == w.forwards[s := f.(stopped := true)] && w2.calls[c].step == Asking;
    var w3 := Act(w2, Go(c));
    assert w3.forwards == w2.forwards && w3.calls[c].step == if f.finished then Dismissing else Over(false);
    var w4 := Act(w3, Go(c));
    assert w4.forwards == w2.forwards && w4.calls[c].step == if f.finished then Reclosing else Over(false);
    var w5 := Act(w4, Go(c));
    assert w5.forwards == w2.forwards;
  }
}
