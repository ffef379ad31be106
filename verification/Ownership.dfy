// What the three registries of terminal sessions share: sessions, tokens, and
// the role an outstanding step plays for one session.

module Ownership {

  /**
   * One call of a Create function. It makes one history, at most one entry for
   * nodeShells (node only) and at most one for execSessions, so its number stands
   * for all three pointers.
   */
  datatype Session = Session(id: string, number: nat, node: bool)

  /** A pending detach: the entry of execDetached, which is also its timer's token. */
  datatype Ticket = Ticket(id: string, history: nat, timer: nat)

  /** On whose behalf a session is released. */
  datatype Who = Caller | Stream | Timer(ticket: Ticket)

  /** The entry under the id of `s` is `s` itself. */
  predicate Has(registry: map<string, Session>, s: Session) {
    s.id in registry && registry[s.id] == s
  }

  predicate KeyedById(registry: map<string, Session>) {
    forall id :: id in registry ==> registry[id].id == id
  }

  datatype Role =
    | Early     // its creator has yet to register it as a node shell
    | Creating  // its creator is calling Create
    | Checking  // its creator has the pod and has yet to look whether the entry is still its own
    | Starting  // its creator may still open its exec session
    | Dropping  // whoever took its node shell entry has yet to read the pod name
    | Deleting  // its creator lost the entry and has yet to delete the pod
    | Tearing   // whoever took its exec entry has yet to tear it down
    | Leaving   // its stream ended and has yet to release the node shell
    | Ending    // its stream ended and has yet to call onClosed
    | NoRole

  function One(b: bool): nat { if b then 1 else 0 }
}
