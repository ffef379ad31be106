// internal/services/podExecServices.go:54-202: the exec registry shared by pod
// and node shells, one step per lock region or library call.

module ExecSessions {
  import opened Ownership

  datatype Work =
    | TakeAny(id: string)            // releaseExecSession(id, nil)
    | TakeOwn(s: Session, who: Who)  // releaseExecSession(id, s)
    | TearDown(s: Session)           // cancel, close stdin, close the size queue
    | FindContainer(s: Session)
    | Start(s: Session)              // the release startExecSession begins with
    | NewExecutor(s: Session)
    | Register(s: Session)
    | StreamEnd(s: Session)          // the deferred end of the stream goroutine
    | Notify(s: Session)             // onClosed
    | HandBack(s: Session)           // a node shell's onClosed: first releaseNodeShell(id, s)
    | GiveUp(s: Session)             // a node shell whose exec failed: releaseNodeShell(id, s)
    | Idle

  datatype Event =
    | Opened(s: Session)
    | Taken(s: Session)
    | StreamWon(s: Session)  // taken by its own stream's end
    | TornDown(s: Session)
    | Lost(s: Session)       // its entry was overwritten
    | Closed(s: Session)     // onClosed was called
    | TimerTook(ticket: Ticket, s: Session)
    | Silent

  datatype Effect = Effect(t: map<string, Session>, next: Work, last: Work, spawn: Work, event: Event, other: Event)

  function Only(t: map<string, Session>, w: Work): Effect { Effect(t, w, Idle, Idle, Silent, Silent) }

  /** One lock region or library call. `ok` is the answer of the library it calls. */
  function Do(t: map<string, Session>, w: Work, ok: bool): Effect {
    match w
    case TakeAny(id) =>
      if id in t then Effect(t - {id}, TearDown(t[id]), Idle, Idle, Taken(t[id]), Silent) else Only(t, Idle)
    case TakeOwn(s, who) =>
      if Has(t, s) then
        Effect(t - {s.id}, TearDown(s), Idle, Idle, Taken(s), if who.Timer? then TimerTook(who.ticket, s) else Silent)
      else Only(t, Idle)
    case TearDown(s) => Effect(t, Idle, Idle, Idle, TornDown(s), Silent)
    case FindContainer(s) => Only(t, if ok then Start(s) else Idle)
    case Start(s) =>
      if s.id in t then Effect(t - {s.id}, TearDown(t[s.id]), NewExecutor(s), Idle, Taken(t[s.id]), Silent)
      else Only(t, NewExecutor(s))
    case NewExecutor(s) => Only(t, if ok then Register(s) else if s.node then GiveUp(s) else Idle)
    case Register(s) =>
      Effect(t[s.id := s], Idle, Idle, StreamEnd(s), Opened(s), if s.id in t then Lost(t[s.id]) else Silent)
    case StreamEnd(s) =>
      if Has(t, s) then
        Effect(t - {s.id}, TearDown(s), if s.node then HandBack(s) else Notify(s), Idle, Taken(s), StreamWon(s))
      else Only(t, Idle)
    case Notify(s) => Effect(t, Idle, Idle, Idle, Closed(s), Silent)
    case _ => Only(t, Idle)
  }

  function RoleOf(w: Work, s: Session): Role {
    match w
    case TearDown(x) => if x == s then Tearing else NoRole
    case FindContainer(x) => if x == s then Starting else NoRole
    case Start(x) => if x == s then Starting else NoRole
    case NewExecutor(x) => if x == s then Starting else NoRole
    case Register(x) => if x == s then Starting else NoRole
    case HandBack(x) => if x == s then Leaving else NoRole
    case Notify(x) => if x == s then Ending else NoRole
    case _ => NoRole
  }

  function Moves(r: Role, w: Work, e: Effect, s: Session): int {
    One(RoleOf(e.next, s) == r) + One(RoleOf(e.last, s) == r) + One(RoleOf(e.spawn, s) == r) - One(RoleOf(w, s) == r)
  }

  function Counted(x: Event, e: Effect): nat { One(e.event == x) + One(e.other == x) }

  /**
   * The exec session of one Create call: opened at most once, then registered, or
   * being torn down, or torn down, or lost with an overwritten entry. `ending`
   * counts what an ended stream still has to do before onClosed.
   */
  predicate ExecOk(held: bool, creator: int, opens: int, tearing: int, torn: int, lost: int, taken: int) {
    && creator >= 0 && opens >= 0 && tearing >= 0 && torn >= 0 && lost >= 0
    && creator + opens <= 1
    && One(held) + tearing + torn + lost == opens
    && taken == tearing + torn
  }

  predicate Takes(w: Work) { w.TakeAny? || w.TakeOwn? || w.StreamEnd? || w.Start? }

  lemma ExecKeptByTake(t: map<string, Session>, w: Work, ok: bool, s: Session, creator: int, opens: int, tearing: int,
                       torn: int, lost: int, taken: int)
    requires KeyedById(t) && Takes(w) && ExecOk(Has(t, s), creator, opens, tearing, torn, lost, taken)
    ensures var e := Do(t, w, ok);
      ExecOk(Has(e.t, s), creator, opens, tearing + Moves(Tearing, w, e, s), torn, lost, taken + Counted(Taken(s), e))
      && Moves(Starting, w, e, s) == 0 && Counted(Opened(s), e) == Counted(TornDown(s), e) == Counted(Lost(s), e) == 0
  {
    hide ExecOk, RoleOf, Moves, Counted;
    var e := Do(t, w, ok);
    TakeMoves(t, w, ok, s);
    TakeSums(Has(t, s), Has(e.t, s), creator, opens, tearing, torn, lost, taken, Moves(Tearing, w, e, s));
  }

  /** A take moves the session from the registry to its taker, or leaves it alone. */
  lemma TakeMoves(t: map<string, Session>, w: Work, ok: bool, s: Session)
    requires KeyedById(t) && Takes(w)
    ensures var e := Do(t, w, ok);
      && Moves(Tearing, w, e, s) == Counted(Taken(s), e) == One(Has(t, s)) - One(Has(e.t, s))
      && Moves(Starting, w, e, s) == 0 && Counted(Opened(s), e) == Counted(TornDown(s), e) == Counted(Lost(s), e) == 0
  {
    hide Do, Moves, Counted, Has, KeyedById;
    if w.TakeAny? || w.TakeOwn? {
      ReleaseMoves(t, w, ok, s);
    } else {
      StreamOrStartMoves(t, w, ok, s);
    }
  }

  lemma ReleaseMoves(t: map<string, Session>, w: Work, ok: bool, s: Session)
    requires KeyedById(t) && (w.TakeAny? || w.TakeOwn?)
    ensures var e := Do(t, w, ok);
      && Moves(Tearing, w, e, s) == Counted(Taken(s), e) == One(Has(t, s)) - One(Has(e.t, s))
      && Moves(Starting, w, e, s) == 0 && Counted(Opened(s), e) == Counted(TornDown(s), e) == Counted(Lost(s), e) == 0
  {
  }

  lemma StreamOrStartMoves(t: map<string, Session>, w: Work, ok: bool, s: Session)
    requires KeyedById(t) && (w.StreamEnd? || w.Start?)
    ensures var e := Do(t, w, ok);
      && Moves(Tearing, w, e, s) == Counted(Taken(s), e) == One(Has(t, s)) - One(Has(e.t, s))
      && Moves(Starting, w, e, s) == 0 && Counted(Opened(s), e) == Counted(TornDown(s), e) == Counted(Lost(s), e) == 0
  {
  }

  lemma TakeSums(before: bool, after: bool, creator: int, opens: int, tearing: int, torn: int, lost: int, taken: int, n: int)
    requires ExecOk(before, creator, opens, tearing, torn, lost, taken) && n == One(before) - One(after) >= 0
    ensures ExecOk(after, creator, opens, tearing + n, torn, lost, taken + n)
  {
  }

  lemma ExecKeptByRest(t: map<string, Session>, w: Work, ok: bool, s: Session, creator: int, opens: int, tearing: int,
                       torn: int, lost: int, taken: int)
    requires KeyedById(t) && !Takes(w) && ExecOk(Has(t, s), creator, opens, tearing, torn, lost, taken)
    requires creator >= One(RoleOf(w, s) == Starting) && tearing >= One(RoleOf(w, s) == Tearing)
    ensures var e := Do(t, w, ok);
      ExecOk(Has(e.t, s), creator + Moves(Starting, w, e, s), opens + Counted(Opened(s), e),
             tearing + Moves(Tearing, w, e, s), torn + Counted(TornDown(s), e), lost + Counted(Lost(s), e), taken)
      && Counted(Taken(s), e) == 0
  {
  }

  lemma ExecKept(t: map<string, Session>, w: Work, ok: bool, s: Session, creator: int, opens: int, tearing: int,
                 torn: int, lost: int, taken: int)
    requires KeyedById(t) && ExecOk(Has(t, s), creator, opens, tearing, torn, lost, taken)
    requires creator >= One(RoleOf(w, s) == Starting) && tearing >= One(RoleOf(w, s) == Tearing)
    ensures var e := Do(t, w, ok);
      ExecOk(Has(e.t, s), creator + Moves(Starting, w, e, s), opens + Counted(Opened(s), e),
             tearing + Moves(Tearing, w, e, s), torn + Counted(TornDown(s), e), lost + Counted(Lost(s), e),
             taken + Counted(Taken(s), e))
  {
    hide Do, ExecOk, RoleOf, Moves, Takes, Counted;
    if Takes(w) {
      ExecKeptByTake(t, w, ok, s, creator, opens, tearing, torn, lost, taken);
    } else {
      ExecKeptByRest(t, w, ok, s, creator, opens, tearing, torn, lost, taken);
    }
  }

  /** onClosed follows a take by the stream, one for one; a stream's take is a take. */
  lemma EndKept(t: map<string, Session>, w: Work, ok: bool, s: Session)
    ensures var e := Do(t, w, ok);
      && Moves(Leaving, w, e, s) + Moves(Ending, w, e, s) + Counted(Closed(s), e) + One(w == HandBack(s))
         == Counted(StreamWon(s), e)
      && Counted(StreamWon(s), e) <= Counted(Taken(s), e)
      && (s.node ==> Moves(Ending, w, e, s) + Counted(Closed(s), e) == 0)
  {
  }

  /** No step here starts or ends the work on a helper pod. */
  lemma NoPodRoles(t: map<string, Session>, w: Work, ok: bool, s: Session)
    ensures var e := Do(t, w, ok);
      Moves(Early, w, e, s) == Moves(Creating, w, e, s) == Moves(Checking, w, e, s)
      == Moves(Dropping, w, e, s) == Moves(Deleting, w, e, s) == 0
  {
    hide Do;
  }

  lemma KeysKept(t: map<string, Session>, w: Work, ok: bool)
    requires KeyedById(t)
    ensures KeyedById(Do(t, w, ok).t)
  {
  }

  /** Opening a session ends its creator. */
  lemma OneCreator(t: map<string, Session>, w: Work, ok: bool, s: Session)
    ensures var e := Do(t, w, ok); Moves(Starting, w, e, s) + Counted(Opened(s), e) <= 0
  {
  }
}
