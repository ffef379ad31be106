// internal/services/nodeShellServices.go:86-209: the helper pod behind a node
// shell, one step per lock region or API call.

module NodeShells {
  import opened Ownership

  datatype Tables = Tables(shells: map<string, Session>, named: set<Session>)  // named: podName is recorded

  datatype Work =
    | TakeAny(id: string)            // releaseNodeShell(id, nil)
    | TakeOwn(s: Session, who: Who)  // releaseNodeShell(id, s)
    | DropPod(s: Session)
    | FindNode(s: Session)
    | Register(s: Session)
    | CreatePod(s: Session)
    | CheckOwner(s: Session)
    | DeletePod(s: Session)
    | WaitPod(s: Session)
    | StartExec(s: Session)  // on to startExecSession
    | Gone(s: Session)       // released for the ended stream, on to onClosed
    | Idle

  datatype Event = PodCreated(s: Session) | PodDeleted(s: Session) | PodLost(s: Session) | TimerTook(ticket: Ticket, s: Session) | Silent

  datatype Effect = Effect(t: Tables, next: Work, last: Work, event: Event)

  /** One lock region or API call. `ok` is the answer of the API it calls. */
  function Do(t: Tables, w: Work, ok: bool): Effect {
    match w
    case TakeAny(id) =>
      if id in t.shells then Effect(t.(shells := t.shells - {id}), DropPod(t.shells[id]), Idle, Silent)
      else Effect(t, Idle, Idle, Silent)
    case TakeOwn(s, who) =>
      var last := if who == Stream then Gone(s) else Idle;
      if Has(t.shells, s) then
        Effect(t.(shells := t.shells - {s.id}), DropPod(s), last, if who.Timer? then TimerTook(who.ticket, s) else Silent)
      else Effect(t, Idle, last, Silent)
    case DropPod(s) => Effect(t, Idle, Idle, if s in t.named then PodDeleted(s) else Silent)
    case FindNode(s) => Effect(t, if ok then Register(s) else Idle, Idle, Silent)
    case Register(s) =>
      Effect(t.(shells := t.shells[s.id := s]), CreatePod(s), Idle,
             if s.id in t.shells && t.shells[s.id] in t.named then PodLost(t.shells[s.id]) else Silent)
    case CreatePod(s) =>
      if ok then Effect(t, CheckOwner(s), Idle, PodCreated(s)) else Effect(t, TakeOwn(s, Caller), Idle, Silent)
    case CheckOwner(s) =>
      if Has(t.shells, s) then Effect(t.(named := t.named + {s}), WaitPod(s), Idle, Silent)
      else Effect(t, DeletePod(s), Idle, Silent)
    case DeletePod(s) => Effect(t, Idle, Idle, PodDeleted(s))
    case WaitPod(s) => Effect(t, if ok then StartExec(s) else TakeOwn(s, Caller), Idle, Silent)
    case _ => Effect(t, Idle, Idle, Silent)
  }

  function RoleOf(w: Work, s: Session): Role {
    match w
    case FindNode(x) => if x == s then Early else NoRole
    case Register(x) => if x == s then Early else NoRole
    case CreatePod(x) => if x == s then Creating else NoRole
    case CheckOwner(x) => if x == s then Checking else NoRole
    case WaitPod(x) => if x == s then Starting else NoRole
    case StartExec(x) => if x == s then Starting else NoRole
    case DropPod(x) => if x == s then Dropping else NoRole
    case DeletePod(x) => if x == s then Deleting else NoRole
    case TakeAny(_) => NoRole
    case TakeOwn(x, who) => if x == s && who == Stream then Leaving else NoRole
    case Gone(x) => if x == s then Ending else NoRole
    case Idle => NoRole
  }

  /** By how much one step changes the number of items in role `r`. */
  function Moves(r: Role, w: Work, e: Effect, s: Session): int {
    One(RoleOf(e.next, s) == r) + One(RoleOf(e.last, s) == r) - One(RoleOf(w, s) == r)
  }

  /**
   * The pod of one session. A created pod is delete-requested, or lost with an
   * overwritten entry, or has exactly one holder that will delete it.
   */
  predicate PodOk(held: bool, named: bool, early: int, creating: int, checking: int, dropping: int, deleting: int,
                  created: int, deleted: int, lost: int)
  {
    && early >= 0 && creating >= 0 && checking >= 0 && dropping >= 0 && deleting >= 0
    && created >= 0 && deleted >= 0 && lost >= 0
    && early + creating + created <= 1
    && checking + deleting + (if named then One(held) + dropping else 0) + deleted + lost == created
    && early + One(held) + dropping <= 1
    && (named ==> created == 1 && checking == 0)
  }

  predicate Releases(w: Work) { w.TakeAny? || w.TakeOwn? || w.DropPod? || w.DeletePod? || w.Idle? }

  lemma PodKeptByRelease(t: Tables, w: Work, ok: bool, s: Session, early: int, creating: int, checking: int,
                         dropping: int, deleting: int, created: int, deleted: int, lost: int)
    requires KeyedById(t.shells) && Releases(w)
    requires PodOk(Has(t.shells, s), s in t.named, early, creating, checking, dropping, deleting, created, deleted, lost)
    requires dropping >= One(RoleOf(w, s) == Dropping) && deleting >= One(RoleOf(w, s) == Deleting)
    ensures var e := Do(t, w, ok);
      PodOk(Has(e.t.shells, s), s in e.t.named, early, creating, checking,
            dropping + Moves(Dropping, w, e, s), deleting + Moves(Deleting, w, e, s),
            created, deleted + One(e.event == PodDeleted(s)), lost)
      && Moves(Early, w, e, s) == Moves(Creating, w, e, s) == Moves(Checking, w, e, s) == 0
      && e.event != PodCreated(s) && e.event != PodLost(s)
  {
    hide PodOk, RoleOf, Moves;
    var e := Do(t, w, ok);
    ReleaseMoves(t, w, ok, s);
    ReleaseSums(Has(t.shells, s), Has(e.t.shells, s), s in t.named, early, creating, checking, dropping, deleting, created, deleted, lost,
                Moves(Dropping, w, e, s), Moves(Deleting, w, e, s), One(e.event == PodDeleted(s)));
  }

  /** A release moves the session from the registry to its taker, or ends what deletes its pod. */
  lemma ReleaseMoves(t: Tables, w: Work, ok: bool, s: Session)
    requires KeyedById(t.shells) && Releases(w)
    ensures var e := Do(t, w, ok);
      && e.t.named == t.named && e.event != PodCreated(s) && e.event != PodLost(s)
      && Moves(Early, w, e, s) == Moves(Creating, w, e, s) == Moves(Checking, w, e, s) == 0
      && Moves(Dropping, w, e, s) == One(Has(t.shells, s)) - One(Has(e.t.shells, s)) - One(w == DropPod(s))
      && Moves(Deleting, w, e, s) == 0 - One(w == DeletePod(s))
      && One(e.event == PodDeleted(s)) == One(w == DeletePod(s)) + One(w == DropPod(s) && s in t.named)
      && One(RoleOf(w, s) == Dropping) == One(w == DropPod(s)) && One(RoleOf(w, s) == Deleting) == One(w == DeletePod(s))
      && (Has(e.t.shells, s) ==> Has(t.shells, s))
  {
  }

  lemma ReleaseSums(held: bool, after: bool, named: bool, early: int, creating: int, checking: int, dropping: int, deleting: int,
                    created: int, deleted: int, lost: int, dropped: int, done: int, more: int)
    requires PodOk(held, named, early, creating, checking, dropping, deleting, created, deleted, lost)
    requires dropping + dropped >= 0 && deleting + done >= 0 && more >= 0 && (after ==> held)
    requires (if named then One(after) - One(held) + dropped else 0) + done + more == 0
    requires One(after) - One(held) + dropped <= 0
    ensures PodOk(after, named, early, creating, checking, dropping + dropped, deleting + done, created, deleted + more, lost)
  {
  }

  lemma PodKeptByRegister(t: Tables, w: Work, ok: bool, s: Session, early: int, creating: int, checking: int,
                         dropping: int, deleting: int, created: int, deleted: int, lost: int)
    requires KeyedById(t.shells) && !Releases(w) && (w.FindNode? || w.Register?)
    requires PodOk(Has(t.shells, s), s in t.named, early, creating, checking, dropping, deleting, created, deleted, lost)
    requires early >= One(RoleOf(w, s) == Early) && creating >= One(RoleOf(w, s) == Creating)
    requires checking >= One(RoleOf(w, s) == Checking)
    ensures var e := Do(t, w, ok);
      PodOk(Has(e.t.shells, s), s in e.t.named,
            early + Moves(Early, w, e, s), creating + Moves(Creating, w, e, s), checking + Moves(Checking, w, e, s),
            dropping, deleting + Moves(Deleting, w, e, s),
            created + One(e.event == PodCreated(s)), deleted, lost + One(e.event == PodLost(s)))
      && Moves(Dropping, w, e, s) == 0 && e.event != PodDeleted(s)
  {
  }

  lemma PodKeptByCreate(t: Tables, w: Work, ok: bool, s: Session, early: int, creating: int, checking: int,
                         dropping: int, deleting: int, created: int, deleted: int, lost: int)
    requires KeyedById(t.shells) && w.CreatePod?
    requires PodOk(Has(t.shells, s), s in t.named, early, creating, checking, dropping, deleting, created, deleted, lost)
    requires early >= One(RoleOf(w, s) == Early) && creating >= One(RoleOf(w, s) == Creating)
    requires checking >= One(RoleOf(w, s) == Checking)
    ensures var e := Do(t, w, ok);
      PodOk(Has(e.t.shells, s), s in e.t.named,
            early + Moves(Early, w, e, s), creating + Moves(Creating, w, e, s), checking + Moves(Checking, w, e, s),
            dropping, deleting + Moves(Deleting, w, e, s),
            created + One(e.event == PodCreated(s)), deleted, lost + One(e.event == PodLost(s)))
      && Moves(Dropping, w, e, s) == 0 && e.event != PodDeleted(s)
  {
  }

  lemma PodKeptByCheck(t: Tables, w: Work, ok: bool, s: Session, early: int, creating: int, checking: int,
                         dropping: int, deleting: int, created: int, deleted: int, lost: int)
    requires KeyedById(t.shells) && !Releases(w) && !w.FindNode? && !w.Register? && !w.CreatePod?
    requires PodOk(Has(t.shells, s), s in t.named, early, creating, checking, dropping, deleting, created, deleted, lost)
    requires early >= One(RoleOf(w, s) == Early) && creating >= One(RoleOf(w, s) == Creating)
    requires checking >= One(RoleOf(w, s) == Checking)
    ensures var e := Do(t, w, ok);
      PodOk(Has(e.t.shells, s), s in e.t.named,
            early + Moves(Early, w, e, s), creating + Moves(Creating, w, e, s), checking + Moves(Checking, w, e, s),
            dropping, deleting + Moves(Deleting, w, e, s),
            created + One(e.event == PodCreated(s)), deleted, lost + One(e.event == PodLost(s)))
      && Moves(Dropping, w, e, s) == 0 && e.event != PodDeleted(s)
  {
  }

  lemma PodKeptByClaim(t: Tables, w: Work, ok: bool, s: Session, early: int, creating: int, checking: int,
                         dropping: int, deleting: int, created: int, deleted: int, lost: int)
    requires KeyedById(t.shells) && !Releases(w) && !w.FindNode? && !w.Register?
    requires PodOk(Has(t.shells, s), s in t.named, early, creating, checking, dropping, deleting, created, deleted, lost)
    requires early >= One(RoleOf(w, s) == Early) && creating >= One(RoleOf(w, s) == Creating)
    requires checking >= One(RoleOf(w, s) == Checking)
    ensures var e := Do(t, w, ok);
      PodOk(Has(e.t.shells, s), s in e.t.named,
            early + Moves(Early, w, e, s), creating + Moves(Creating, w, e, s), checking + Moves(Checking, w, e, s),
            dropping, deleting + Moves(Deleting, w, e, s),
            created + One(e.event == PodCreated(s)), deleted, lost + One(e.event == PodLost(s)))
      && Moves(Dropping, w, e, s) == 0 && e.event != PodDeleted(s)
  {
    hide Do, PodOk, RoleOf, Moves, Releases;
    if w.CreatePod? {
      PodKeptByCreate(t, w, ok, s, early, creating, checking, dropping, deleting, created, deleted, lost);
    } else {
      PodKeptByCheck(t, w, ok, s, early, creating, checking, dropping, deleting, created, deleted, lost);
    }
  }

  lemma PodKeptByCreator(t: Tables, w: Work, ok: bool, s: Session, early: int, creating: int, checking: int,
                         dropping: int, deleting: int, created: int, deleted: int, lost: int)
    requires KeyedById(t.shells) && !Releases(w)
    requires PodOk(Has(t.shells, s), s in t.named, early, creating, checking, dropping, deleting, created, deleted, lost)
    requires early >= One(RoleOf(w, s) == Early) && creating >= One(RoleOf(w, s) == Creating)
    requires checking >= One(RoleOf(w, s) == Checking)
    ensures var e := Do(t, w, ok);
      PodOk(Has(e.t.shells, s), s in e.t.named,
            early + Moves(Early, w, e, s), creating + Moves(Creating, w, e, s), checking + Moves(Checking, w, e, s),
            dropping, deleting + Moves(Deleting, w, e, s),
            created + One(e.event == PodCreated(s)), deleted, lost + One(e.event == PodLost(s)))
      && Moves(Dropping, w, e, s) == 0 && e.event != PodDeleted(s)
  {
    hide Do, PodOk, RoleOf, Moves, Releases;
    if w.FindNode? || w.Register? {
      PodKeptByRegister(t, w, ok, s, early, creating, checking, dropping, deleting, created, deleted, lost);
    } else {
      PodKeptByClaim(t, w, ok, s, early, creating, checking, dropping, deleting, created, deleted, lost);
    }
  }

  lemma PodKept(t: Tables, w: Work, ok: bool, s: Session, early: int, creating: int, checking: int, dropping: int,
                deleting: int, created: int, deleted: int, lost: int)
    requires KeyedById(t.shells)
    requires PodOk(Has(t.shells, s), s in t.named, early, creating, checking, dropping, deleting, created, deleted, lost)
    requires early >= One(RoleOf(w, s) == Early) && creating >= One(RoleOf(w, s) == Creating)
    requires checking >= One(RoleOf(w, s) == Checking) && dropping >= One(RoleOf(w, s) == Dropping)
    requires deleting >= One(RoleOf(w, s) == Deleting)
    ensures var e := Do(t, w, ok);
      PodOk(Has(e.t.shells, s), s in e.t.named,
            early + Moves(Early, w, e, s), creating + Moves(Creating, w, e, s), checking + Moves(Checking, w, e, s),
            dropping + Moves(Dropping, w, e, s), deleting + Moves(Deleting, w, e, s),
            created + One(e.event == PodCreated(s)), deleted + One(e.event == PodDeleted(s)), lost + One(e.event == PodLost(s)))
  {
    hide Do, PodOk, RoleOf, Moves, Releases;
    if Releases(w) {
      PodKeptByRelease(t, w, ok, s, early, creating, checking, dropping, deleting, created, deleted, lost);
    } else {
      PodKeptByCreator(t, w, ok, s, early, creating, checking, dropping, deleting, created, deleted, lost);
    }
  }

  lemma KeysKept(t: Tables, w: Work, ok: bool)
    requires KeyedById(t.shells)
    ensures KeyedById(Do(t, w, ok).t.shells)
  {
  }

  /** The creator of `s` is one thread, and no step of it makes two. */
  lemma OneCreator(t: Tables, w: Work, ok: bool, s: Session)
    ensures var e := Do(t, w, ok);
      Moves(Early, w, e, s) + Moves(Creating, w, e, s) + Moves(Checking, w, e, s) + Moves(Starting, w, e, s) <= 0
      && Moves(Tearing, w, e, s) == 0
      && (Has(e.t.shells, s) && !Has(t.shells, s) ==> RoleOf(w, s) == Early)
  {
  }

  /** An ended stream goes on to onClosed only when its entry is gone. */
  lemma GoneFirst(t: Tables, w: Work, ok: bool, s: Session)
    ensures var e := Do(t, w, ok);
      && Moves(Leaving, w, e, s) + Moves(Ending, w, e, s) == (if w == Gone(s) then -1 else 0)
      && (Moves(Ending, w, e, s) > 0 ==> !Has(e.t.shells, s))
  {
  }

  /** A session nobody creates and nobody registered gains nothing from a step. */
  lemma Untouched(t: Tables, w: Work, ok: bool, s: Session)
    requires KeyedById(t.shells) && RoleOf(w, s) !in {Early, Creating} && !Has(t.shells, s)
    ensures var e := Do(t, w, ok);
      Moves(Dropping, w, e, s) <= 0 && e.event != PodCreated(s) && !Has(e.t.shells, s)
  {
  }
}
