// internal/services/portForwardServices.go:206-370,425-450,488-553: one port
// forward from start to end, on its own. Resolving, dialling, panics and closes of
// the stop channel by other threads are answers of the environment, one Attempt for
// each turn of run's loop; all threads together are in PortForwardRuns.

module PortForward {
  import opened Options

  datatype Status = Starting | Ready | Reconnecting | Error | Closed

  datatype State = State(podName: string, localPort: nat, targetPort: nat, status: Status, errText: string,
                         attempts: nat, everReady: bool, finished: bool)

  datatype Target = Target(podName: string, targetPort: nat)

  /** How a dial ends: without becoming ready, or served. `port` is GetPorts' answer for the port asked for. */
  datatype Tunnel = Refused(err: Option<string>) | Served(port: nat -> Option<nat>, end: Option<string>)

  datatype Panic = NoPanic | InResolve | BeforeReady | AfterReady

  /**
   * One turn of the loop: resolve's answer, the dial's course, whether the stop
   * channel is closed when the dial returned, and whether it closes during the pause.
   */
  datatype Attempt = Attempt(resolved: Option<Target>, resolveErr: string, tunnel: Tunnel, stopped: bool,
                             interrupted: bool, panic: Panic)

  datatype Dial = Dial(podName: string, localPort: nat, targetPort: nat)

  const MAX_ATTEMPTS := 5
  const BACKOFF: seq<nat> := [1, 2, 4, 8, 15]

  function OrErr(err: Option<string>, fallback: string): string { if err.Some? then err.value else fallback }
  function Text(err: Option<string>): string { if err.Some? then err.value else "" }

  /** The turn's tunnel came up. */
  predicate CameUp(a: Attempt) { a.resolved.Some? && a.tunnel.Served? && a.panic != InResolve && a.panic != BeforeReady }

  /** The code of the turn runs to its end; a panic is only met on the way it is placed on. */
  predicate Panics(a: Attempt) {
    a.panic == InResolve || (a.resolved.Some? && (a.panic == BeforeReady || (a.panic == AfterReady && a.tunnel.Served?)))
  }

  /** The turn gets to its dial. */
  predicate Dials(a: Attempt) { a.resolved.Some? && a.panic != InResolve && a.panic != BeforeReady }

  /** The turns among the first `n` that get to their dial. */
  function Dialling(env: nat -> Attempt, n: nat): seq<nat> {
    if n == 0 then [] else Dialling(env, n - 1) + if Dials(env(n - 1)) then [n - 1] else []
  }

  lemma {:induction false} DiallingOnly(env: nat -> Attempt, n: nat)
    ensures forall i :: 0 <= i < |Dialling(env, n)| ==> Dialling(env, n)[i] < n && Dials(env(Dialling(env, n)[i]))
    ensures forall k :: 0 <= k < n && Dials(env(k)) ==> k in Dialling(env, n)
    ensures forall i, j :: 0 <= i < j < |Dialling(env, n)| ==> Dialling(env, n)[i] < Dialling(env, n)[j]
  {
    if n > 0 {
      DiallingOnly(env, n - 1);
    }
  }

  /** There is one dial for each of the first `n` turns that gets to it, for the pod and port it resolved; the first asks for `requested`. */
  predicate Dialled(env: nat -> Attempt, n: nat, dials: seq<Dial>, requested: nat) {
    var turns := Dialling(env, n);
    && |dials| == |turns|
    && (forall i :: 0 <= i < |turns| ==>
          var t := env(turns[i]).resolved;
          t.Some? && dials[i].podName == t.value.podName && dials[i].targetPort == t.value.targetPort)
    && (dials != [] && turns[0] == 0 ==> dials[0].localPort == requested)
  }

  lemma DialledMore(env: nat -> Attempt, n: nat, dials: seq<Dial>, requested: nat, port: nat)
    requires Dialled(env, n, dials, requested) && (n == 0 ==> port == requested)
    ensures !Dials(env(n)) ==> Dialled(env, n + 1, dials, requested)
    ensures Dials(env(n)) ==>
      var t := env(n).resolved.value; Dialled(env, n + 1, dials + [Dial(t.podName, port, t.targetPort)], requested)
  {
    DiallingOnly(env, n);
  }

  lemma NothingDialled(env: nat -> Attempt, requested: nat)
    ensures Dialled(env, 0, [], requested)
  {
  }

  /** What the turn failed with, if it says. */
  function Said(a: Attempt): Option<string> {
    if a.resolved.None? then Some(a.resolveErr)
    else match a.tunnel case Refused(err) => err case Served(_, end) => end
  }

  /** The loop goes on after turn `k` (with the tunnel up at least once). */
  predicate GoesOn(env: nat -> Attempt, reconnect: bool, k: nat) {
    var a := env(k);
    !Panics(a) && !a.stopped && CameUp(env(0)) && reconnect && k < MAX_ATTEMPTS - 1 && !a.interrupted
  }

  /** The session ends in the error row: worked once, lost, and not to be tried again. */
  predicate EndsInError(env: nat -> Attempt, reconnect: bool, k: nat) {
    var a := env(k);
    !Panics(a) && !a.stopped && CameUp(env(0)) && (!reconnect || k >= MAX_ATTEMPTS - 1)
  }

  /** The forwarder binds a non-zero port it is asked for, and reports one when left to choose. */
  predicate HonestAbout(a: Attempt, p: nat) {
    a.tunnel.Served? ==>
      var q := a.tunnel.port(p);
      if p == 0 then q.Some? && q.value != 0 else q.None? || q.value == p
  }

  ghost predicate Honest(env: nat -> Attempt) {
    forall k: nat, p: nat :: HonestAbout(env(k), p)
  }

  /** From the first event that is ready every event has its local port, and every later dial asks for it. */
  predicate PortKept(st: State, events: seq<State>, dials: seq<Dial>) {
    && (forall i, j :: 0 <= i <= j < |events| && events[i].status == Ready ==> events[j].localPort == events[i].localPort != 0)
    && (forall i :: 0 <= i < |events| && events[i].status == Ready ==> st.everReady && st.localPort == events[i].localPort)
    && (|dials| > 1 ==> st.everReady)
    && (forall i :: 0 < i < |dials| ==> dials[i].localPort == st.localPort)
    && (st.everReady ==> st.localPort != 0)
  }

  /** An event of the same session that is not its becoming ready. */
  predicate SamePort(st: State, next: State) {
    next.status != Ready && next.everReady == st.everReady && next.localPort == st.localPort
  }

  lemma PortKeptByEvent(st: State, events: seq<State>, dials: seq<Dial>, next: State)
    requires PortKept(st, events, dials)
    requires SamePort(st, next)
    ensures PortKept(next, events + [next], dials)
  {
  }

  lemma PortKeptByReady(st: State, events: seq<State>, dials: seq<Dial>, next: State, dial: Dial)
    requires PortKept(st, events, dials) && next.everReady && next.localPort != 0
    requires st.everReady ==> next.localPort == dial.localPort == st.localPort
    requires !st.everReady ==> dials == []
    ensures PortKept(next, events + [next], dials + [dial])
  {
  }

  lemma PortKeptByDial(st: State, events: seq<State>, dials: seq<Dial>, dial: Dial)
    requires PortKept(st, events, dials)
    requires if st.everReady then dial.localPort == st.localPort else dials == []
    ensures PortKept(st, events, dials + [dial])
  {
  }

  lemma HonestTurn(env: nat -> Attempt, k: nat, p: nat)
    ensures Honest(env) ==> HonestAbout(env(k), p)
  {
  }

  /** The process-wide registry. */
  class Registry {
    var sessions: map<string, Session>

    constructor ()
      ensures sessions == map[]
    {
      sessions := map[];
    }

    /** StartPortForward's locked part: an id in use is refused. */
    method Register(s: Session) returns (ok: bool)
      modifies this
      ensures ok == (s.id !in old(sessions))
      ensures sessions == if ok then old(sessions)[s.id := s] else old(sessions)
    {
      ok := s.id !in sessions;
      if ok {
        sessions := sessions[s.id := s];
      }
    }

    /** pfRemove: by identity, so a replacement under the same id stays. It closes the channel too. */
    method Remove(s: Session)
      modifies this, s`stop
      ensures sessions == Without(old(sessions), s)
      ensures forall x: Session :: Registered(sessions, x) <==> Registered(old(sessions), x) && x != s
      ensures s.stop
    {
      if s.id in sessions && sessions[s.id] == s {
        sessions := sessions - {s.id};
      }
      s.CloseChannel();
    }

    /** StopPortForward, with nothing between its steps: the channel closes, and the row of a session that has ended is dismissed. */
    method Stop(id: string) returns (found: bool)
      requires forall i :: i in sessions ==> sessions[i].id == i
      modifies this, if id in sessions then {sessions[id]} else {}
      ensures found == (id in old(sessions))
      ensures !found ==> sessions == old(sessions)
      ensures found ==>
        var s := old(sessions)[id];
        s.stop &&
        if old(s.st.finished) then sessions == old(sessions) - {id} && s.st == old(s.st).(status := Closed, errText := "")
        else sessions == old(sessions) && s.st == old(s.st)
    {
      found := id in sessions;
      if found {
        var s := sessions[id];
        s.CloseChannel();
        if s.st.finished {
          Remove(s);
          s.SetStatus(Closed, None);
        }
      }
    }
  }

  ghost predicate Registered(sessions: map<string, Session>, x: Session) { x.id in sessions && sessions[x.id] == x }

  /** The registry without `s`, and with whatever else is under its id. */
  function Without(sessions: map<string, Session>, s: Session): map<string, Session> {
    if s.id in sessions && sessions[s.id] == s then sessions - {s.id} else sessions
  }

  class Session {
    const id: string
    const reconnect: bool     // not for a pinned Pod
    const requested: nat      // the local port asked for, 0 for any
    var st: State
    var stop: bool            // the stop channel is closed
    var events: seq<State>    // what onEvent was given
    var reports: seq<Option<string>>  // what was sent on `first`
    var dials: seq<Dial>
    var pauses: seq<nat>      // how long it slept before each new turn, in seconds

    constructor (id: string, pinnedPod: bool, requested: nat)
      ensures this.id == id && this.requested == requested && reconnect == !pinnedPod
      ensures st == State("", requested, 0, Starting, "", 0, false, false)
      ensures events == [] && reports == [] && dials == [] && !stop && pauses == []
    {
      this.id, this.requested, reconnect := id, requested, !pinnedPod;
      st := State("", requested, 0, Starting, "", 0, false, false);
      events, reports, dials, stop, pauses := [], [], [], false, [];
    }

    method CloseChannel()
      modifies this`stop
      ensures stop
    {
      stop := true;
    }

    /** The look at the channel: closed already, or by another thread before it. */
    method Stopped(a: Attempt) returns (closed: bool)
      modifies this`stop
      ensures closed == stop == (old(stop) || a.stopped)
    {
      stop := stop || a.stopped;
      closed := stop;
    }

    method Publish(next: State)
      modifies this`st, this`events
      ensures st == next && events == old(events) + [next]
      ensures PortKept(old(st), old(events), dials) && SamePort(old(st), next) ==> PortKept(st, events, dials)
    {
      if PortKept(st, events, dials) && SamePort(st, next) {
        PortKeptByEvent(st, events, dials, next);
      }
      st := next;
      events := events + [st];
    }

    method SetStatus(status: Status, err: Option<string>)
      modifies this`st, this`events
      ensures st == old(st).(status := status, errText := Text(err)) && events == old(events) + [st]
      ensures PortKept(old(st), old(events), dials) && status != Ready ==> PortKept(st, events, dials)
    {
      Publish(st.(status := status, errText := Text(err)));
    }

    /** Only the first report is sent. */
    method Report(r: Option<string>)
      modifies this`reports
      ensures reports == if old(reports) == [] then [r] else old(reports)
    {
      if reports == [] {
        reports := [r];
      }
    }

    function BoundPort(): nat reads this { if st.everReady then st.localPort else requested }

    /** Where a dial of the requested or bound port keeps the port. */
    predicate RunOncePort(st: State, events: seq<State>, dials: seq<Dial>, a: Attempt, port: nat) {
      && PortKept(st, events, dials) && HonestAbout(a, port)
      && port == (if st.everReady then st.localPort else requested)
      && (if st.everReady then port != 0 else dials == [])
    }

    /** runOnce, with its ready step. */
    method RunOnce(t: Target, a: Attempt) returns (err: Option<string>)
      requires a.panic != BeforeReady
      modifies this`st, this`events, this`reports, this`dials
      ensures dials == old(dials) + [Dial(t.podName, old(BoundPort()), t.targetPort)]
      ensures a.tunnel.Refused? ==> st == old(st) && events == old(events) && reports == old(reports) && err == a.tunnel.err
      ensures a.tunnel.Served? ==>
        var bound := a.tunnel.port(old(BoundPort()));
        && st == old(st).(status := Ready, everReady := true, errText := "",
                          localPort := if bound.Some? then bound.value else old(BoundPort()))
        && events == old(events) + [st] && err == a.tunnel.end
        && reports == if old(reports) == [] then [None] else old(reports)
      ensures RunOncePort(old(st), old(events), old(dials), a, old(BoundPort())) ==> PortKept(st, events, dials)
    {
      hide PortKept;
      var port := BoundPort();
      ghost var st0, events0, dials0 := st, events, dials;
      dials := dials + [Dial(t.podName, port, t.targetPort)];
      match a.tunnel
      case Refused(e) =>
        if RunOncePort(st0, events0, dials0, a, port) {
          PortKeptByDial(st0, events0, dials0, Dial(t.podName, port, t.targetPort));
        }
        err := e;
      case Served(ports, end) =>
        var bound := port;
        if ports(port).Some? {
          bound := ports(port).value;
        }
        if RunOncePort(st0, events0, dials0, a, port) {
          PortKeptByReady(st0, events0, dials0, st.(status := Ready, localPort := bound, errText := "", everReady := true),
                          Dial(t.podName, port, t.targetPort));
        }
        Publish(st.(status := Ready, localPort := bound, errText := "", everReady := true));
        Report(None);
        err := end;
    }

    /** As newPFSession leaves it. */
    predicate Fresh() reads this {
      && st == State(st.podName, requested, st.targetPort, Starting, "", 0, false, false)
      && !stop && reports == [] && dials == [] && pauses == [] && (forall i :: 0 <= i < |events| ==> events[i].status == Starting)
    }

    /** What the loop keeps between its turns, the first `n` of which went on. */
    ghost predicate Between(env: nat -> Attempt, n: nat) reads this {
      && (forall k :: 0 <= k < n ==> GoesOn(env, reconnect, k))
      && n < MAX_ATTEMPTS && |dials| <= n
      && (n == 0 ==> !st.everReady && reports == [] && dials == [])
      && (n > 0 ==> st.everReady && reports == [None] && CameUp(env(0)) && reconnect)
      && Open() && Waiting() && !stop && Dialled(env, n, dials, requested) && pauses == BACKOFF[..n]
      && (Honest(env) ==> PortKept(st, events, dials))
    }

    /** Nothing published says closed, and run has not returned. */
    predicate Open() reads this {
      !st.finished && st.status != Closed && forall i :: 0 <= i < |events| ==> events[i].status != Closed
    }

    predicate Waiting() reads this { st.status == Starting || st.status == Reconnecting }

    /** At most the last event says closed. */
    predicate ClosesLast() reads this {
      !st.finished && forall i :: 0 <= i < |events| && events[i].status == Closed ==> i == |events| - 1 && st.status == Closed
    }

    /** The turn's first half: resolve and dial. `alive` unless the goroutine panicked. */
    method Connect(a: Attempt) returns (alive: bool, err: Option<string>)
      requires Open() && Waiting() && (!st.everReady ==> dials == [] && reports == [])
      modifies this
      ensures alive == !Panics(a) && stop == old(stop)
      ensures Open() && st.status != Error
      ensures st.everReady == (old(st).everReady || CameUp(a))
      ensures dials == if Dials(a) then old(dials) + [Dial(a.resolved.value.podName, old(BoundPort()), a.resolved.value.targetPort)]
                       else old(dials)
      ensures if a.panic == InResolve || a.resolved.None? then st == old(st) && events == old(events)
        else
          var found := old(st).(podName := a.resolved.value.podName, targetPort := a.resolved.value.targetPort);
          if CameUp(a) then events == old(events) + [found, st] && st == found.(status := Ready, everReady := true, errText := "", localPort := st.localPort)
          else events == old(events) + [found] && st == found
      ensures alive ==> err == Said(a)
      ensures pauses == old(pauses)
      ensures reports == if CameUp(a) && old(reports) == [] then [None] else old(reports)
      ensures PortKept(old(st), old(events), old(dials)) && HonestAbout(a, old(BoundPort())) ==> PortKept(st, events, dials)
    {
      hide PortKept, HonestAbout;
      NonZeroPort(st, events, dials);
      if a.panic == InResolve {
        return false, None;
      }
      err := Some(a.resolveErr);
      if a.resolved.Some? {
        Publish(st.(podName := a.resolved.value.podName, targetPort := a.resolved.value.targetPort));
        if a.panic == BeforeReady {
          return false, None;
        }
        err := RunOnce(a.resolved.value, a);
        if a.panic == AfterReady && a.tunnel.Served? {
          return false, None;
        }
      }
      alive := true;
    }

    /** The turn's second half: what becomes of the session when the tunnel has ended. */
    method Settle(a: Attempt, n: nat, err: Option<string>) returns (on: bool)
      requires Open() && n < MAX_ATTEMPTS && st.status != Error && !stop
      modifies this`st, this`events, this`reports, this`stop, this`pauses
      ensures on == (!a.stopped && st.everReady && reconnect && n < MAX_ATTEMPTS - 1 && !a.interrupted)
      ensures on ==> Open() && st.status == Reconnecting && !stop
      ensures ClosesLast()
      ensures st.everReady == old(st).everReady
      ensures !on && st.everReady ==> (st.status == Error <==> !a.stopped && (!reconnect || n >= MAX_ATTEMPTS - 1))
      ensures reports == if old(reports) != [] || (!a.stopped && st.everReady) then old(reports)
        else if a.stopped then [Some("port forward was stopped")]
        else [Some(if err.Some? then err.value else "the tunnel could not be established")]
      ensures
        var closed, failed := old(st).(status := Closed, errText := ""), old(st).(status := Error);
        var lost := old(st).(status := Reconnecting, attempts := n + 1, errText := if err.Some? then err.value else "");
        if a.stopped then st == closed && events == old(events) + [st]
        else if !st.everReady then
          st == failed.(errText := if err.Some? then err.value else "the tunnel could not be established") && events == old(events) + [st]
        else if !reconnect || n >= MAX_ATTEMPTS - 1 then
          st == failed.(errText := if err.Some? then err.value else "the tunnel closed") && events == old(events) + [st]
        else if a.interrupted then st == lost.(status := Closed, errText := "") && events == old(events) + [lost, st]
        else st == lost && events == old(events) + [st]
      ensures pauses == old(pauses) + if !a.stopped && st.everReady && reconnect && n < MAX_ATTEMPTS - 1 then [BACKOFF[n]] else []
      ensures PortKept(old(st), old(events), dials) ==> PortKept(st, events, dials)
    {
      hide PortKept;
      var stopped := Stopped(a);
      if stopped {
        SetStatus(Closed, None);
        Report(Some("port forward was stopped"));
        return false;
      }
      if !st.everReady {
        SetStatus(Error, Some(OrErr(err, "the tunnel could not be established")));
        Report(Some(OrErr(err, "the tunnel could not be established")));
        return false;
      }
      if !reconnect || n >= MAX_ATTEMPTS - 1 {
        SetStatus(Error, Some(OrErr(err, "the tunnel closed")));
        return false;
      }
      Publish(st.(status := Reconnecting, attempts := n + 1, errText := Text(err)));
      pauses := pauses + [BACKOFF[if n < |BACKOFF| - 1 then n else |BACKOFF| - 1]];
      if a.interrupted {
        CloseChannel();
        SetStatus(Closed, None);
        return false;
      }
      return true;
    }

    /** What Start is told of a first turn that did not come up. */
    function FirstError(a: Attempt): string {
      if a.stopped then "port forward was stopped"
      else if Said(a).Some? then Said(a).value else "the tunnel could not be established"
    }

    function LastError(a: Attempt): string { if Said(a).Some? then Said(a).value else "the tunnel closed" }

    /** What the loop leaves behind when turn `n - 1` did not go on. */
    ghost predicate Over(env: nat -> Attempt, n: nat) reads this {
      && Ended(env, n, st.status == Error && st.everReady)
      && ClosesLast() && |dials| <= n && (!reconnect ==> n == 1)
      && st.everReady == CameUp(env(0))
      && (if CameUp(env(0)) then reports == [None]
          else reports == if Panics(env(0)) then [] else [Some(FirstError(env(0)))])
      && (st.status == Error && st.everReady ==> st.errText == LastError(env(n - 1)))
      && Dialled(env, n, dials, requested) && |pauses| <= n && pauses == BACKOFF[..|pauses|] && n - 1 <= |pauses|
      && (Honest(env) ==> PortKept(st, events, dials))
    }

    /** How the run ends: after turn `n - 1`, the first that did not go on. */
    ghost predicate Ended(env: nat -> Attempt, n: nat, kept: bool) reads this {
      && 1 <= n <= MAX_ATTEMPTS
      && (forall k :: 0 <= k < n - 1 ==> GoesOn(env, reconnect, k)) && !GoesOn(env, reconnect, n - 1)
      && kept == EndsInError(env, reconnect, n - 1)
    }

    /**
     * run: exactly one report, nil if and only if the first attempt came up; the row
     * stays if and only if a tunnel that worked was lost for good; closed is terminal;
     * a bounded number of dials, one for a pinned pod; one local port from the first
     * ready on.
     */
    method Run(env: nat -> Attempt, registry: Registry) returns (ghost turns: nat)
      requires Fresh() && events == []
      modifies this, registry
      ensures Ended(env, turns, st.status == Error)
      ensures reports == [if CameUp(env(0)) then None
                          else if Panics(env(0)) then Some("port forward ended unexpectedly") else Some(FirstError(env(0)))]
      ensures st.finished && (st.status == Error || st.status == Closed)
      ensures st.status == Error ==>
        st.everReady && st.errText == LastError(env(turns - 1)) && registry.sessions == old(registry.sessions)
      ensures st.status == Closed ==> stop && registry.sessions == Without(old(registry.sessions), this)
      ensures forall i, j :: 0 <= i <= j < |events| && events[i].status == Closed ==> events[j].status == Closed
      ensures events != [] && events[|events| - 1].status == st.status
      ensures |dials| <= turns && (!reconnect ==> |dials| <= 1)
      ensures Dialled(env, turns, dials, requested)
      ensures turns - 1 <= |pauses| <= turns && pauses <= [1, 2, 4, 8, 15]
      ensures Honest(env) ==> PortKept(st, events, dials)
    {
      hide PortKept, Honest, HonestAbout, Panics, CameUp, GoesOn, EndsInError, Dialled;
      FreshPort(st);
      NothingDialled(env, requested);
      var on := true;
      var attempt := 0;
      while on
        invariant attempt <= MAX_ATTEMPTS
        invariant if on then Between(env, attempt) else Over(env, attempt)
        invariant registry.sessions == old(registry.sessions)
        decreases MAX_ATTEMPTS - attempt, on
      {
        on := Turn(env, attempt);
        attempt := attempt + 1;
      }
      turns := attempt;
      End(registry);
    }

    /** In the middle of turn `n`: its tunnel has ended, or never came up, or the goroutine panicked. */
    ghost predicate Connected(env: nat -> Attempt, n: nat) reads this {
      && (forall k :: 0 <= k < n ==> GoesOn(env, reconnect, k))
      && n < MAX_ATTEMPTS && (n > 0 ==> CameUp(env(0)) && reconnect)
      && st.everReady == CameUp(env(0)) && reports == (if CameUp(env(0)) then [None] else [])
      && Open() && st.status != Error && !stop && |dials| <= n + 1
      && Dialled(env, n + 1, dials, requested) && pauses == BACKOFF[..n]
      && (Honest(env) ==> PortKept(st, events, dials))
    }

    /** One turn of the loop. */
    method Turn(env: nat -> Attempt, n: nat) returns (on: bool)
      requires Between(env, n)
      modifies this
      ensures if on then Between(env, n + 1) else Over(env, n + 1)
    {
      hide PortKept, Honest, HonestAbout, Panics, CameUp, Dialled, Said, Open, ClosesLast, FirstError, LastError, Over, GoesOn;
      HonestTurn(env, n, BoundPort());
      ghost var was := dials;
      DialledMore(env, n, was, requested, BoundPort());
      var alive, err := Connect(env(n));
      on := false;
      if alive {
        on := Decide(env, n, err);
      } else {
        Panicked(env, n);
      }
    }

    lemma Panicked(env: nat -> Attempt, n: nat)
      requires Connected(env, n) && Panics(env(n))
      ensures Over(env, n + 1)
    {
      hide PortKept, Honest, HonestAbout, Panics, CameUp, Dialled, Said, Open, ClosesLast, FirstError, LastError;
      OpenIsUnclosed();
    }

    method Decide(env: nat -> Attempt, n: nat, err: Option<string>) returns (on: bool)
      requires Connected(env, n) && !Panics(env(n)) && err == Said(env(n))
      modifies this
      ensures if on then Between(env, n + 1) else Over(env, n + 1)
    {
      hide PortKept, Honest, HonestAbout, Panics, CameUp, Dialled, Said, Open, ClosesLast, FirstError, LastError;
      SaidIs(env(n));
      on := Settle(env(n), n, err);
    }

    lemma SaidIs(a: Attempt)
      ensures var err := Said(a);
        && FirstError(a) == (if a.stopped then "port forward was stopped" else if err.Some? then err.value else "the tunnel could not be established")
        && LastError(a) == if err.Some? then err.value else "the tunnel closed"
    {
    }

    lemma OpenIsUnclosed()
      ensures Open() ==> ClosesLast()
    {
    }

    /** What run defers: a last report if there was none, and the row kept or removed. */
    method End(registry: Registry)
      requires ClosesLast() && |reports| <= 1
      modifies this`st, this`events, this`reports, this`stop, registry
      ensures reports == if old(reports) == [] then [Some("port forward ended unexpectedly")] else old(reports)
      ensures st.finished && st.everReady == old(st).everReady
      ensures st == if old(st).status == Error && old(st).everReady then old(st).(finished := true)
                    else old(st).(finished := true, status := Closed, errText := "")
      ensures registry.sessions == if st.status == Error then old(registry.sessions) else Without(old(registry.sessions), this)
      ensures st.status == Closed ==> stop
      ensures forall i, j :: 0 <= i <= j < |events| && events[i].status == Closed ==> events[j].status == Closed
      ensures events != [] && events[|events| - 1].status == st.status
      ensures PortKept(old(st), old(events), dials) ==> PortKept(st, events, dials)
    {
      hide PortKept;
      Report(Some("port forward ended unexpectedly"));
      FinishedPort(st, events, dials);
      st := st.(finished := true);
      var keep := st.status == Error && st.everReady;
      if keep {
        Publish(st);
      } else {
        registry.Remove(this);
        SetStatus(Closed, None);
      }
    }
  }

  lemma FinishedPort(st: State, events: seq<State>, dials: seq<Dial>)
    ensures PortKept(st, events, dials) ==> PortKept(st.(finished := true), events, dials)
  {
  }

  lemma FreshPort(st: State)
    ensures !st.everReady ==> PortKept(st, [], [])
  {
  }

  lemma NonZeroPort(st: State, events: seq<State>, dials: seq<Dial>)
    ensures PortKept(st, events, dials) && st.everReady ==> st.localPort != 0
  {
  }
}
