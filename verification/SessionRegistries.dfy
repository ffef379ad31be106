// The registries themselves, field by field, and the code that runs while their
// mutex is held. Each method is one step of NodeShells, ExecSessions or Handoff.

module SessionRegistries {
  import opened Options
  import opened Ownership
  import NodeShells
  import ExecSessions
  import Handoff

  /** nodeShells and the pod names of its sessions, under nodeShellMu. */
  class NodeShellRegistry {
    var nodeShells: map<string, Session>
    var podName: map<Session, string>

    ghost function Tables(): NodeShells.Tables reads this { NodeShells.Tables(nodeShells, podName.Keys) }

    constructor ()
      ensures Tables() == NodeShells.Tables(map[], {})
    {
      nodeShells, podName := map[], map[];
    }

    /** releaseNodeShell: the entry is taken by exactly one caller, and by no one when a later session has the id. */
    method Release(id: string, want: Option<Session>) returns (taken: Option<Session>)
      requires KeyedById(nodeShells) && (want.Some? ==> want.value.id == id)
      modifies this`nodeShells
      ensures var w := if want.Some? then NodeShells.TakeOwn(want.value, Caller) else NodeShells.TakeAny(id);
        var e := NodeShells.Do(old(Tables()), w, true);
        Tables() == e.t && e.next == if taken.Some? then NodeShells.DropPod(taken.value) else NodeShells.Idle
      ensures forall s :: Has(nodeShells, s) <==> Has(old(nodeShells), s) && taken != Some(s)
      ensures taken.Some? ==> Has(old(nodeShells), taken.value) && id !in nodeShells
      ensures want.Some? && !Has(old(nodeShells), want.value) ==> taken.None?
    {
      var ok := id in nodeShells;
      if ok && (want.None? || nodeShells[id] == want.value) {
        taken := Some(nodeShells[id]);
        nodeShells := nodeShells - {id};
      } else {
        taken := None;
      }
    }

    /** The new entry is held; whatever was under its id no longer is, and every other session still is. */
    method Register(s: Session)
      modifies this`nodeShells
      ensures forall x :: Has(nodeShells, x) <==> x == s || (Has(old(nodeShells), x) && x.id != s.id)
      ensures Tables() == NodeShells.Do(old(Tables()), NodeShells.Register(s), true).t
    {
      nodeShells := nodeShells[s.id := s];
    }

    /** After Create returned: record the name, unless the entry was lost while it was in flight. */
    method RecordName(s: Session, created: string) returns (stillOurs: bool)
      modifies this`podName
      ensures var e := NodeShells.Do(old(Tables()), NodeShells.CheckOwner(s), true);
        Tables() == e.t && e.next == if stillOurs then NodeShells.WaitPod(s) else NodeShells.DeletePod(s)
      ensures stillOurs ==> podName[s] == created
    {
      stillOurs := s.id in nodeShells && nodeShells[s.id] == s;
      if stillOurs {
        podName := podName[s := created];
      }
    }
  }

  /** execSessions, under execMu. */
  class ExecRegistry {
    var execSessions: map<string, Session>

    constructor ()
      ensures execSessions == map[]
    {
      execSessions := map[];
    }

    method Release(id: string, want: Option<Session>) returns (taken: Option<Session>)
      requires KeyedById(execSessions) && (want.Some? ==> want.value.id == id)
      modifies this
      ensures var w := if want.Some? then ExecSessions.TakeOwn(want.value, Caller) else ExecSessions.TakeAny(id);
        var e := ExecSessions.Do(old(execSessions), w, true);
        execSessions == e.t && e.next == if taken.Some? then ExecSessions.TearDown(taken.value) else ExecSessions.Idle
      ensures forall s :: Has(execSessions, s) <==> Has(old(execSessions), s) && taken != Some(s)
      ensures taken.Some? ==> Has(old(execSessions), taken.value) && id !in execSessions
      ensures want.Some? && !Has(old(execSessions), want.value) ==> taken.None?
    {
      var ok := id in execSessions;
      if ok && (want.None? || execSessions[id] == want.value) {
        taken := Some(execSessions[id]);
        execSessions := execSessions - {id};
      } else {
        taken := None;
      }
    }

    /** The new entry is held; whatever was under its id no longer is, and every other session still is. */
    method Register(s: Session)
      modifies this
      ensures forall x :: Has(execSessions, x) <==> x == s || (Has(old(execSessions), x) && x.id != s.id)
      ensures execSessions == ExecSessions.Do(old(execSessions), ExecSessions.Register(s), true).t
    {
      execSessions := execSessions[s.id := s];
    }
  }

  /** execDetached, under execDetachMu. */
  class DetachTable {
    var execDetached: map<string, Ticket>

    constructor ()
      ensures execDetached == map[]
    {
      execDetached := map[];
    }

    /** DetachExecSession's locked part; a previous entry loses its token. */
    method Put(id: string, history: nat, timer: nat) returns (pending: Ticket)
      modifies this
      ensures forall k :: Handoff.Holds(execDetached, k) <==> k == pending || (Handoff.Holds(old(execDetached), k) && k.id != id)
      ensures var e := Handoff.Do(old(execDetached), map[], map[], Handoff.Arm(id, history), timer);
        execDetached == e.t && e.spawn == Handoff.Fire(pending)
    {
      pending := Ticket(id, history, timer);
      execDetached := execDetached[id := pending];
    }

    /** AttachExecSession's locked part: exactly the pending detaches of the session it looked up lose their token. */
    method Withdraw(id: string, history: nat)
      modifies this
      ensures forall k :: Handoff.Holds(execDetached, k) <==>
                          Handoff.Holds(old(execDetached), k) && !(k.id == id && k.history == history)
      ensures execDetached == Handoff.Do(old(execDetached), map[], map[], Handoff.Disarm(id, history), 0).t
    {
      if id in execDetached && execDetached[id].history == history {
        execDetached := execDetached - {id};
      }
    }

    /** The timer's locked part: it goes on only if its own entry is still there. */
    method Expire(pending: Ticket) returns (fires: bool)
      modifies this
      ensures var e := Handoff.Do(old(execDetached), map[], map[], Handoff.Fire(pending), 0);
        execDetached == e.t && fires == (e.next == Handoff.ShellOf(pending))
      ensures fires == Handoff.Holds(old(execDetached), pending)
      ensures forall k :: Handoff.Holds(execDetached, k) <==> Handoff.Holds(old(execDetached), k) && k != pending
    {
      fires := pending.id in execDetached && execDetached[pending.id] == pending;
      if fires {
        execDetached := execDetached - {pending.id};
      }
    }
  }
}
