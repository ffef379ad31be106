// internal/services/execHandoffServices.go: moving a session's panel to another
// window. The entry of execDetached is the grace timer's token.

module Handoff {
  import opened Ownership

  datatype Work =
    | FindExec(id: string, detach: bool)   // execHistory, exec registry first
    | FindShell(id: string, detach: bool)  // and the node shells second
    | Arm(id: string, history: nat)        // DetachExecSession under execDetachMu
    | Disarm(id: string, history: nat)     // AttachExecSession under execDetachMu
    | Fire(ticket: Ticket)                 // the timer's callback under execDetachMu
    | ShellOf(ticket: Ticket)              // releaseExecByHistory, first half
    | ExecOf(ticket: Ticket)               // and second half
    | EndShell(ticket: Ticket, s: Session) // releaseNodeShell(id, s)
    | EndExec(ticket: Ticket, s: Session)  // releaseExecSession(id, s)
    | Idle

  datatype Event =
    | Armed(ticket: Ticket)
    | Fired(ticket: Ticket)
    | Attached(ticket: Ticket)
    | Replaced(ticket: Ticket)
    | Silent

  datatype Effect = Effect(t: map<string, Ticket>, next: Work, last: Work, spawn: Work, event: Event, other: Event)

  function Only(t: map<string, Ticket>, w: Work): Effect { Effect(t, w, Idle, Idle, Silent, Silent) }

  /** What a lookup of the history leads to. */
  function Found(id: string, s: Session, detach: bool): Work {
    if detach then Arm(id, s.number) else Disarm(id, s.number)
  }

  function Do(t: map<string, Ticket>, shells: map<string, Session>, execs: map<string, Session>, w: Work, timer: nat): Effect {
    match w
    case FindExec(id, detach) => Only(t, if id in execs then Found(id, execs[id], detach) else FindShell(id, detach))
    case FindShell(id, detach) => Only(t, if id in shells then Found(id, shells[id], detach) else Idle)
    case Arm(id, history) =>
      var ticket := Ticket(id, history, timer);
      Effect(t[id := ticket], Idle, Idle, Fire(ticket), Armed(ticket), if id in t then Replaced(t[id]) else Silent)
    case Disarm(id, history) =>
      if id in t && t[id].history == history then Effect(t - {id}, Idle, Idle, Idle, Attached(t[id]), Silent)
      else Only(t, Idle)
    case Fire(ticket) =>
      if Holds(t, ticket) then Effect(t - {ticket.id}, ShellOf(ticket), ExecOf(ticket), Idle, Fired(ticket), Silent)
      else Only(t, Idle)
    case ShellOf(ticket) =>
      Only(t, if ticket.id in shells && shells[ticket.id].number == ticket.history
              then EndShell(ticket, shells[ticket.id]) else Idle)
    case ExecOf(ticket) =>
      Only(t, if ticket.id in execs && execs[ticket.id].number == ticket.history
              then EndExec(ticket, execs[ticket.id]) else Idle)
    case _ => Only(t, Idle)
  }

  predicate Holds(t: map<string, Ticket>, k: Ticket) { k.id in t && t[k.id] == k }

  predicate KeysOk(t: map<string, Ticket>) { forall id :: id in t ==> t[id].id == id }

  function Counted(x: Event, e: Effect): nat { One(e.event == x) + One(e.other == x) }

  /** A pending entry is armed once, and leaves once: fired, attached or replaced. */
  predicate TicketOk(held: bool, armed: int, fired: int, attached: int, replaced: int) {
    && fired >= 0 && attached >= 0 && replaced >= 0
    && One(held) + fired + attached + replaced == armed <= 1
  }

  lemma TicketKept(t: map<string, Ticket>, shells: map<string, Session>, execs: map<string, Session>, w: Work, timer: nat,
                   k: Ticket, armed: int, fired: int, attached: int, replaced: int)
    requires KeysOk(t) && TicketOk(Holds(t, k), armed, fired, attached, replaced)
    requires k.timer == timer ==> armed == 0
    ensures var e := Do(t, shells, execs, w, timer);
      TicketOk(Holds(e.t, k), armed + Counted(Armed(k), e), fired + Counted(Fired(k), e),
               attached + Counted(Attached(k), e), replaced + Counted(Replaced(k), e))
  {
  }

  lemma KeysKept(t: map<string, Ticket>, shells: map<string, Session>, execs: map<string, Session>, w: Work, timer: nat)
    requires KeysOk(t)
    ensures KeysOk(Do(t, shells, execs, w, timer).t)
  {
  }

  lemma ArmsOnlyNew(t: map<string, Ticket>, shells: map<string, Session>, execs: map<string, Session>, w: Work, timer: nat,
                    k: Ticket)
    requires k.timer != timer
    ensures Counted(Armed(k), Do(t, shells, execs, w, timer)) == 0
  {
  }
}
