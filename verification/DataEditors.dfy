// internal/services/dataObjectServices.go:89-195 against a store that compares
// versions: any number of editors load and save one object in any interleaving,
// while others write or remove it. A save reads, checks and updates in two calls.

module DataEditors {
  import opened Options
  import opened Base64
  import opened DataObject

  /** One revision of the object. */
  datatype Rev = Rev(content: Content, immutable: bool)

  /** The API server's side: the live revision under its version, and the next version to give out. */
  datatype Server = Server(live: Option<(nat, Rev)>, next: nat)

  function Written(s: Server, r: Rev): Server { Server(Some((s.next, r)), s.next + 1) }

  /** Update: only over the version it carries. */
  predicate Current(s: Server, version: nat) { s.live.Some? && s.live.value.0 == version }

  /** checkWritable: `loaded` is None for the empty version, which asks for no check. */
  function CheckWritable(live: nat, loaded: Option<nat>, immutable: bool): Option<Error> {
    if immutable then Some(Error.Immutable)
    else if loaded.Some? && live != loaded.value then Some(Conflict)
    else None
  }

  class Store {
    var live: Option<(nat, Rev)>
    var next: nat

    ghost function Value(): Server reads this { Server(live, next) }

    constructor ()
      ensures Value() == Server(None, 0)
    {
      live, next := None, 0;
    }

    method Update(version: nat, r: Rev, dryRun: bool) returns (out: Result<nat>)
      modifies this
      ensures out.Ok? <==> Current(old(Value()), version)
      ensures Value() == if out.Ok? && !dryRun then Written(old(Value()), r) else old(Value())
      ensures if out.Ok? then out.value == (if dryRun then version else old(next))
              else out.error == if old(live).None? then NotFound else Conflict
    {
      if live.None? {
        return Err(NotFound);
      }
      if live.value.0 != version {
        return Err(Conflict);
      }
      out := Ok(version);
      if !dryRun {
        out := Ok(next);
        live, next := Some((next, r)), next + 1;
      }
    }

    /**
     * SaveDataObject with nobody in between: it writes the decoded entries over the
     * version that was loaded, or says why not and changes nothing.
     */
    method Save(kind: Kind, loaded: Option<nat>, entries: seq<Entry>, legal: string -> bool, dryRun: bool) returns (out: Result<nat>)
      modifies this
      ensures var c := Split(kind, entries, |entries|, legal);
        && (out.Ok? <==> c.Ok? && old(live).Some? && !old(live).value.1.immutable
                         && (loaded.Some? ==> loaded.value == old(live).value.0))
        && Value() == (if out.Ok? && !dryRun then Written(old(Value()), Rev(Stored(kind, c.value), false)) else old(Value()))
        && (out.Ok? ==> out.value == if dryRun then old(live).value.0 else old(next))
        && (out.Err? ==> out.error == if c.Err? then c.error else if old(live).None? then NotFound
                                      else if old(live).value.1.immutable then Error.Immutable else Conflict)
    {
      var c := DecodeEntries(kind, entries, legal);
      if c.Err? {
        return Err(c.error);
      }
      if live.None? {
        return Err(NotFound);
      }
      var refused := CheckWritable(live.value.0, loaded, live.value.1.immutable);
      if refused.Some? {
        return Err(refused.value);
      }
      out := Update(live.value.0, Rev(Stored(kind, c.value), false), dryRun);
    }
  }

  // ---- Any interleaving ----

  /** A save that has read and checked, and has yet to update. */
  datatype Pending = Pending(loaded: Option<nat>, version: nat, got: Rev, wrote: Content, dryRun: bool)

  datatype Commit = Commit(loaded: Option<nat>, version: nat, over: Rev, wrote: Content)

  datatype World = World(server: Server, loads: set<(nat, Content)>, pending: seq<Pending>, commits: seq<Commit>)

  const IDLE := World(Server(None, 0), {}, [], [])

  datatype Action =
    | Write(r: Rev)                    // somebody else creates or changes the object
    | Remove
    | LoadIt                           // an editor loads it, and remembers version and content
    | BeginSave(loaded: Option<nat>, entries: seq<Entry>, dryRun: bool)
    | EndSave(i: nat)

  function Act(kind: Kind, legal: string -> bool, w: World, a: Action): World {
    match a
    case Write(r) => w.(server := Written(w.server, r))
    case Remove => w.(server := w.server.(live := None))
    case LoadIt =>
      if w.server.live.Some? then w.(loads := w.loads + {(w.server.live.value.0, w.server.live.value.1.content)}) else w
    case BeginSave(loaded, entries, dryRun) =>
      var c := Split(kind, entries, |entries|, legal);
      if c.Ok? && w.server.live.Some?
         && CheckWritable(w.server.live.value.0, loaded, w.server.live.value.1.immutable).None? then
        w.(pending := w.pending + [Pending(loaded, w.server.live.value.0, w.server.live.value.1, Stored(kind, c.value), dryRun)])
      else w
    case EndSave(i) =>
      if i < |w.pending| then
        var p := w.pending[i];
        var rest := w.(pending := w.pending[..i] + w.pending[i + 1..]);
        if Current(w.server, p.version) && !p.dryRun then
          rest.(server := Written(w.server, Rev(p.wrote, p.got.immutable)),
                commits := w.commits + [Commit(p.loaded, p.version, w.server.live.value.1, p.wrote)])
        else rest
      else w
  }

  function Play(kind: Kind, legal: string -> bool, actions: seq<Action>): World {
    if actions == [] then IDLE
    else Act(kind, legal, Play(kind, legal, actions[..|actions| - 1]), actions[|actions| - 1])
  }

  /** `past` is what each version given out so far was. */
  predicate Inv(w: World, past: map<nat, Rev>) {
    && (forall v :: v in past ==> v < w.server.next)
    && (w.server.live.Some? ==> w.server.live.value.0 in past && past[w.server.live.value.0] == w.server.live.value.1)
    && (forall l :: l in w.loads ==> l.0 in past && past[l.0].content == l.1)
    && (forall p :: p in w.pending ==> PendingOk(p, past))
    && (forall c :: c in w.commits ==> CommitOk(c, past))
  }

  predicate PendingOk(p: Pending, past: map<nat, Rev>) {
    p.version in past && past[p.version] == p.got && !p.got.immutable && (p.loaded.Some? ==> p.loaded.value == p.version)
  }

  predicate CommitOk(c: Commit, past: map<nat, Rev>) {
    c.version in past && past[c.version] == c.over && !c.over.immutable && (c.loaded.Some? ==> c.loaded.value == c.version)
  }

  lemma ActInv(kind: Kind, legal: string -> bool, w: World, a: Action, past: map<nat, Rev>) returns (next: map<nat, Rev>)
    requires Inv(w, past)
    ensures Inv(Act(kind, legal, w, a), next)
  {
    hide Split, Stored;
    if a.EndSave? {
      next := EndSaveInv(kind, legal, w, a.i, past);
    } else {
      next := if a.Write? then past[w.server.next := a.r] else past;
    }
  }

  lemma EndSaveInv(kind: Kind, legal: string -> bool, w: World, i: nat, past: map<nat, Rev>) returns (next: map<nat, Rev>)
    requires Inv(w, past)
    ensures Inv(Act(kind, legal, w, EndSave(i)), next)
  {
    hide CommitOk, PendingOk;
    next := past;
    if i < |w.pending| {
      var v, p := Act(kind, legal, w, EndSave(i)), w.pending[i];
      assert forall q :: q in v.pending ==> q in w.pending;
      if Current(w.server, p.version) && !p.dryRun {
        next := past[w.server.next := Rev(p.wrote, p.got.immutable)];
        CommitFits(p, past, w.server.live.value.1);
      }
      LaterKnows(past, next, w.server.next);
    }
  }

  /** A save that comes to its update over the version it carries commits over what it read. */
  lemma CommitFits(p: Pending, past: map<nat, Rev>, now: Rev)
    requires PendingOk(p, past) && past[p.version] == now
    ensures CommitOk(Commit(p.loaded, p.version, now, p.wrote), past)
  {
  }

  /** A new version takes nothing from what is known of the others. */
  lemma LaterKnows(past: map<nat, Rev>, next: map<nat, Rev>, v: nat)
    requires v !in past && (next == past || (v in next && next == past[v := next[v]]))
    ensures forall p :: PendingOk(p, past) ==> PendingOk(p, next)
    ensures forall c :: CommitOk(c, past) ==> CommitOk(c, next)
  {
  }

  lemma {:induction false} EveryRun(kind: Kind, legal: string -> bool, actions: seq<Action>) returns (past: map<nat, Rev>)
    ensures Inv(Play(kind, legal, actions), past)
  {
    hide Act;
    past := map[];
    if actions != [] {
      var n := |actions| - 1;
      past := EveryRun(kind, legal, actions[..n]);
      past := ActInv(kind, legal, Play(kind, legal, actions[..n]), actions[n], past);
    }
  }

  /**
   * No lost update: a save made with a loaded version commits over exactly that
   * version, so what it replaces is what every load of that version showed; and no
   * save commits over an immutable object.
   */
  lemma NoLostUpdate(kind: Kind, legal: string -> bool, actions: seq<Action>, c: Commit)
    requires c in Play(kind, legal, actions).commits
    ensures !c.over.immutable
    ensures c.loaded.Some? ==> c.version == c.loaded.value
    ensures c.loaded.Some? ==>
      forall l :: l in Play(kind, legal, actions).loads && l.0 == c.loaded.value ==> l.1 == c.over.content
  {
    hide Play;
    var past := EveryRun(kind, legal, actions);
    assert CommitOk(c, past);
  }

  // ---- What an editor sees of it ----

  /**
   * A save with nothing between its two calls: if it is accepted the object has a new
   * version with its entries, and one commit says what it was put over; a dry run, or a
   * save that is refused, changes nothing. Whoever else is saving goes on unharmed.
   */
  lemma SaveAlone(kind: Kind, legal: string -> bool, w: World, loaded: Option<nat>, entries: seq<Entry>, dryRun: bool)
    ensures var v := Act(kind, legal, Act(kind, legal, w, BeginSave(loaded, entries, dryRun)), EndSave(|w.pending|));
      var c := Split(kind, entries, |entries|, legal);
      if c.Ok? && w.server.live.Some? && !w.server.live.value.1.immutable && !dryRun
         && (loaded.Some? ==> loaded.value == w.server.live.value.0)
      then
        && v.server.live == Some((w.server.next, Rev(Stored(kind, c.value), false))) && v.server.next == w.server.next + 1
        && v.commits == w.commits + [Commit(loaded, w.server.live.value.0, w.server.live.value.1, Stored(kind, c.value))]
        && v.pending == w.pending && v.loads == w.loads
      else v == w
  {
    hide Split, Stored;
    var b := Act(kind, legal, w, BeginSave(loaded, entries, dryRun));
    if |b.pending| > |w.pending| {
      assert b.pending[..|w.pending|] + b.pending[|w.pending| + 1..] == w.pending;
    }
  }

  /** What is written is what the next load shows, under a version that was never given out; of a removed object it shows nothing. */
  lemma LoadShows(kind: Kind, legal: string -> bool, w: World, r: Rev)
    ensures var v := Act(kind, legal, Act(kind, legal, w, Write(r)), LoadIt);
      v.loads == w.loads + {(w.server.next, r.content)} && v.server.next > w.server.next && v.commits == w.commits && v.pending == w.pending
    ensures var v := Act(kind, legal, Act(kind, legal, w, Remove), LoadIt);
      v.loads == w.loads && v.server.live.None? && v.server.next == w.server.next && v.commits == w.commits && v.pending == w.pending
  {
    hide Split, Stored;
  }
}
