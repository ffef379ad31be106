// internal/business/trivyScan.go:46-283: one cluster scan from its targets to
// the saved record, cancellable at every check, and the gate its progress passes.

module ClusterScan {
  import opened Options

  datatype Line = Line(phase: string, current: nat, total: nat, message: string)

  function One(b: bool): nat { if b then 1 else 0 }

  /** scanProgress: a line passes only while the gate is open. */
  class Gate {
    var sent: seq<Line>  // what the callback was given
    var closed: bool
    var imagesActive: bool
    ghost var byRun: seq<bool>  // which of the lines the run itself sent
    ghost var late: nat         // how many others came through while images were being scanned

    constructor ()
      ensures sent == [] && byRun == [] && late == 0 && !closed && !imagesActive
    {
      sent, closed, imagesActive := [], false, false;
      byRun, late := [], 0;
    }

    /** The run's own lines, in order. */
    ghost function Mine(): seq<Line>
      reads this
    {
      Own(sent, byRun)
    }

    method Send(l: Line, ghost mine: bool)
      requires |byRun| == |sent|
      modifies this`sent, this`byRun, this`late
      ensures |byRun| == |sent| && old(sent) <= sent && old(byRun) <= byRun
      ensures if closed then sent == old(sent) && late == old(late)
              else sent == old(sent) + [l] && byRun == old(byRun) + [mine] && late == old(late) + One(!mine && imagesActive)
      ensures Mine() == old(Mine()) + (if mine && !closed then [l] else [])
    {
      if closed {
        return;
      }
      OwnSnoc(sent, byRun, l, mine);
      sent := sent + [l];
      byRun := byRun + [mine];
      late := late + One(!mine && imagesActive);
    }

    method SetImagesActive(v: bool)
      modifies this`imagesActive
      ensures imagesActive == v
    {
      imagesActive := v;
    }

    method Close()
      modifies this`closed
      ensures closed
    {
      closed := true;
    }
  }

  function Own(lines: seq<Line>, byRun: seq<bool>): seq<Line> {
    if lines == [] || |byRun| != |lines| then []
    else Own(lines[..|lines| - 1], byRun[..|lines| - 1]) + if byRun[|lines| - 1] then [lines[|lines| - 1]] else []
  }

  lemma OwnSnoc(lines: seq<Line>, byRun: seq<bool>, l: Line, mine: bool)
    requires |byRun| == |lines|
    ensures Own(lines + [l], byRun + [mine]) == Own(lines, byRun) + if mine then [l] else []
  {
    assert (lines + [l])[..|lines|] == lines && (byRun + [mine])[..|lines|] == byRun;
  }

  /** A step of the misconfig goroutine's progress: it looks whether images are being scanned, and later sends. */
  datatype Move = Look(current: nat, total: nat, message: string) | Put

  /**
   * The misconfig goroutine, as far as the gate sees it. `moves(n)` is what it does
   * before the run's n-th use of the gate: any number of steps, two lock regions a line.
   */
  class MisconfigScan {
    const moves: nat -> seq<Move>
    var turn: nat
    var pending: Option<Line>  // looked for, and not yet sent

    constructor (moves: nat -> seq<Move>)
      ensures this.moves == moves && turn == 0 && pending == None
    {
      this.moves, turn, pending := moves, 0, None;
    }

    /**
     * Every line that is not the run's is a misconfig line, and at most one comes
     * through during the image loop: the one already looked for before.
     */
    ghost predicate Fair(gate: Gate) reads this, gate {
      && |gate.byRun| == |gate.sent|
      && (forall i :: 0 <= i < |gate.sent| && !gate.byRun[i] ==> gate.sent[i].phase == "misconfig")
      && (pending.Some? ==> pending.value.phase == "misconfig")
      && gate.late + One(gate.imagesActive && pending.Some?) <= 1
    }

    /** Before use `from` images began to be scanned, with a line held or not: it is late once it is put. */
    ghost predicate Since(gate: Gate, from: nat, held: bool) reads this, gate {
      && from <= turn
      && (pending.Some? <==> held && !PutIn(moves, from, turn))
      && gate.late == One(held && PutIn(moves, from, turn))
    }

    /**
     * While images are being scanned the line held back beforehand, if any, comes
     * through with the next Put, and no other is looked for.
     */
    method Go(gate: Gate)
      requires Fair(gate)
      modifies this, gate`sent, gate`byRun, gate`late
      ensures Fair(gate) && gate.Mine() == old(gate.Mine())
      ensures old(gate.sent) <= gate.sent && (gate.closed ==> gate.sent == old(gate.sent))
      ensures turn == old(turn) + 1
      ensures pending.Some? <==> HeldAfter(moves(old(turn)), gate.imagesActive, old(pending.Some?))
      ensures gate.late == old(gate.late) + One(gate.imagesActive && !gate.closed && old(pending.Some?) && Put in moves(old(turn)))
    {
      var steps := moves(turn);
      turn := turn + 1;
      for k := 0 to |steps|
        invariant Fair(gate) && gate.Mine() == old(gate.Mine())
        invariant old(gate.sent) <= gate.sent && (gate.closed ==> gate.sent == old(gate.sent)) && turn == old(turn) + 1
        invariant pending.Some? <==> HeldAfter(steps[..k], gate.imagesActive, old(pending.Some?))
        invariant gate.late == old(gate.late) + One(gate.imagesActive && !gate.closed && old(pending.Some?) && Put in steps[..k])
      {
        assert steps[..k + 1] == steps[..k] + [steps[k]];
        Step(gate, steps[k]);
      }
      assert steps[..|steps|] == steps;
    }

    method Step(gate: Gate, m: Move)
      requires Fair(gate)
      modifies this`pending, gate`sent, gate`byRun, gate`late
      ensures Fair(gate) && gate.Mine() == old(gate.Mine())
      ensures old(gate.sent) <= gate.sent && (gate.closed ==> gate.sent == old(gate.sent))
      ensures pending.Some? <==> if m == Put then false else old(pending.Some?) || !gate.imagesActive
      ensures gate.late == old(gate.late) + One(gate.imagesActive && !gate.closed && old(pending.Some?) && m == Put)
    {
      match m
      case Look(current, total, message) =>
        if pending.None? && !gate.imagesActive {
          pending := Some(Line("misconfig", current, total, message));
        }
      case Put =>
        if pending.Some? {
          var l := pending.value;
          pending := None;
          gate.Send(l, false);
        }
    }

    /** The run's own use of the gate, after whatever the goroutine does first. */
    method Say(gate: Gate, l: Line)
      requires Fair(gate) && !gate.closed
      modifies this, gate`sent, gate`byRun, gate`late
      ensures Fair(gate) && gate.Mine() == old(gate.Mine()) + [l] && old(gate.sent) <= gate.sent
      ensures turn == old(turn) + 1
      ensures pending.Some? <==> HeldAfter(moves(old(turn)), gate.imagesActive, old(pending.Some?))
      ensures gate.late == old(gate.late) + One(gate.imagesActive && old(pending.Some?) && Put in moves(old(turn)))
    {
      Go(gate);
      gate.Send(l, true);
    }

    /** While no images are being scanned nothing is late. */
    method Tell(gate: Gate, l: Line)
      requires Fair(gate) && !gate.closed && !gate.imagesActive
      modifies this, gate`sent, gate`byRun, gate`late
      ensures Fair(gate) && gate.Mine() == old(gate.Mine()) + [l] && gate.late == old(gate.late)
    {
      hide Fair;
      Say(gate, l);
    }

    /** The same, while images are being scanned. */
    method Report(gate: Gate, l: Line, ghost from: nat, ghost held: bool)
      requires Fair(gate) && !gate.closed && gate.imagesActive && Since(gate, from, held)
      modifies this, gate`sent, gate`byRun, gate`late
      ensures Fair(gate) && Since(gate, from, held)
      ensures gate.Mine() == old(gate.Mine()) + [l] && turn == old(turn) + 1
    {
      hide Fair;
      PutInLater(moves, from, turn);
      Say(gate, l);
    }
  }

  /** Whether a line is held after these moves: one looked for while no images are scanned, until it is put. */
  function HeldAfter(ms: seq<Move>, active: bool, held: bool): (h: bool)
    ensures active ==> (h <==> held && Put !in ms)
    ensures !active ==> (h <==> if ms == [] then held else ms[|ms| - 1] != Put)
  {
    if ms == [] then held
    else if ms[|ms| - 1] == Put then false
    else HeldAfter(ms[..|ms| - 1], active, held) || !active
  }

  /** The goroutine puts a line before one of the run's uses `from` to `to` of the gate. */
  ghost predicate PutIn(moves: nat -> seq<Move>, from: nat, to: nat) {
    exists t :: from <= t < to && Put in moves(t)
  }

  lemma PutInLater(moves: nat -> seq<Move>, from: nat, to: nat)
    requires from <= to
    ensures PutIn(moves, from, to + 1) <==> PutIn(moves, from, to) || Put in moves(to)
  {
  }

  /** The run's context: once cancelled it stays so. `arrives` says at which look the cancellation is there. */
  class Context {
    const arrives: nat -> bool
    var looks: nat
    var done: bool

    constructor (arrives: nat -> bool)
      ensures this.arrives == arrives && looks == 0 && !done
    {
      this.arrives, looks, done := arrives, 0, false;
    }

    method Err() returns (cancelled: bool)
      modifies this
      ensures cancelled == done == (old(done) || arrives(old(looks))) && looks == old(looks) + 1
    {
      done := done || arrives(looks);
      looks := looks + 1;
      cancelled := done;
    }

    /** A wait that cancellation ended. */
    method Interrupted()
      modifies this`done
      ensures done
    {
      done := true;
    }
  }

  datatype Target = Target(image: string)

  datatype Finding = Finding(id: string, severity: string)

  /** How one image scan went. A scan that reports no result counts as an empty one. */
  datatype ImageAnswer =
    | Interrupted                              // cancelled while waiting for the image cache
    | Broken(reason: string)                   // the scan's error, classified
    | Answered(findings: seq<Finding>, os: string)
    | NoResult

  datatype ImageScan = ImageScan(waits: bool, pullSecretForbidden: bool, answer: ImageAnswer)

  datatype Coverage = Coverage(image: string, scanned: bool, reason: string, os: string)

  datatype Misconfigs = MisconfigFailed(err: string) | MisconfigDone(count: nat) | MisconfigNone

  /** What the calls outside the run answer. `early`: the misconfig scan ended before the images did. */
  datatype Env = Env(targets: seq<Target>, listError: Option<string>, image: nat -> ImageScan,
                     early: bool, misconfig: Option<Misconfigs>, saveError: Option<string>)

  datatype Scan = Scan(id: string, images: seq<Coverage>, imageTargets: map<string, seq<Finding>>,
                       misconfigError: string, resourceCount: nat)

  datatype Meta = Meta(id: string, imagesFailed: nat)

  datatype Outcome = Ok(scan: Scan) | Cancelled | Failed(err: string)

  /** The cluster's history. */
  class History {
    var saved: seq<(Scan, Meta)>

    constructor ()
      ensures saved == []
    {
      saved := [];
    }

    method Save(s: Scan, m: Meta, error: Option<string>)
      modifies this
      ensures saved == if error.None? then old(saved) + [(s, m)] else old(saved)
    {
      if error.None? {
        saved := saved + [(s, m)];
      }
    }
  }

  // ---- What a complete run records ----

  /** The record says how the misconfig scan went: its error, or how many resources it saw. */
  predicate TellsMisconfigs(env: Env, s: Scan) {
    && env.misconfig.Some?
    && s.misconfigError == (if env.misconfig.value.MisconfigFailed? then env.misconfig.value.err else "")
    && s.resourceCount == (if env.misconfig.value.MisconfigDone? then env.misconfig.value.count else 0)
  }

  /** An image scanned under its own conditions: its coverage entry. */
  function CoverageOf(t: Target, s: ImageScan): Coverage {
    match s.answer
    case Broken(reason) => Coverage(t.image, false, if s.pullSecretForbidden then "pullSecretForbidden" else reason, "")
    case Answered(_, os) => Coverage(t.image, true, "", os)
    case _ => Coverage(t.image, true, "", "")
  }

  function FindingsOf(s: ImageScan): seq<Finding> {
    if s.answer.Answered? then s.answer.findings else []
  }

  /** The findings of the first `n` targets, by image. */
  function TargetsOf(env: Env, n: nat): map<string, seq<Finding>>
    requires n <= |env.targets|
  {
    if n == 0 then map[]
    else if env.image(n - 1).answer.Broken? then TargetsOf(env, n - 1)
    else TargetsOf(env, n - 1)[env.targets[n - 1].image := FindingsOf(env.image(n - 1))]
  }

  function FailedIn(images: seq<Coverage>): nat {
    if images == [] then 0 else FailedIn(images[..|images| - 1]) + if images[|images| - 1].scanned then 0 else 1
  }

  predicate Distinct(targets: seq<Target>) {
    forall i, j :: 0 <= i < j < |targets| ==> targets[i].image != targets[j].image
  }

  /** The record has an entry for every target, in order, and findings for exactly those images some scan answered. */
  predicate Complete(env: Env, s: Scan) {
    && |s.images| == |env.targets|
    && (forall i :: 0 <= i < |s.images| ==> s.images[i] == CoverageOf(env.targets[i], env.image(i)))
    && s.imageTargets == TargetsOf(env, |env.targets|)
  }

  lemma {:induction false} TargetsKeys(env: Env, n: nat, image: string)
    requires n <= |env.targets|
    ensures image in TargetsOf(env, n) <==>
              exists i :: 0 <= i < n && env.targets[i].image == image && !env.image(i).answer.Broken?
  {
    if n > 0 {
      TargetsKeys(env, n - 1, image);
      if image == env.targets[n - 1].image && !env.image(n - 1).answer.Broken? {
        assert env.targets[n - 1].image == image;
      }
    }
  }

  lemma {:induction false} TargetsValue(env: Env, n: nat, i: nat)
    requires i < n <= |env.targets| && Distinct(env.targets) && !env.image(i).answer.Broken?
    ensures env.targets[i].image in TargetsOf(env, n) && TargetsOf(env, n)[env.targets[i].image] == FindingsOf(env.image(i))
  {
    if i < n - 1 {
      TargetsValue(env, n - 1, i);
    }
  }

  /** For distinct images, an image has findings recorded if and only if its status is scanned, and they are its own. */
  lemma ScannedIffTargets(env: Env, s: Scan, i: nat)
    requires Complete(env, s) && Distinct(env.targets) && i < |s.images|
    ensures s.images[i].image == env.targets[i].image
    ensures s.images[i].scanned <==> s.images[i].image in s.imageTargets
    ensures s.images[i].scanned ==> s.imageTargets[s.images[i].image] == FindingsOf(env.image(i))
  {
    TargetsKeys(env, |env.targets|, env.targets[i].image);
    if s.images[i].scanned {
      TargetsValue(env, |env.targets|, i);
    }
  }

  /** Every image's status says whether it has findings. */
  predicate Agrees(s: Scan) {
    forall i :: 0 <= i < |s.images| ==> (s.images[i].scanned <==> s.images[i].image in s.imageTargets)
  }

  /** Status and findings agree however the scans go if and only if no image is listed twice. */
  lemma AgreesIffDistinct(targets: seq<Target>)
    ensures (forall env: Env, s: Scan :: env.targets == targets && Complete(env, s) ==> Agrees(s)) <==> Distinct(targets)
  {
    if Distinct(targets) {
      forall env: Env, s: Scan | env.targets == targets && Complete(env, s) ensures Agrees(s) {
        forall i | 0 <= i < |s.images| ensures s.images[i].scanned <==> s.images[i].image in s.imageTargets {
          ScannedIffTargets(env, s, i);
        }
      }
    } else {
      var i, j :| 0 <= i < j < |targets| && targets[i].image == targets[j].image;
      RepeatDisagrees(targets, i, j);
    }
  }

  /** The first scan of a repeated image fails and the second answers. */
  lemma RepeatDisagrees(targets: seq<Target>, i: nat, j: nat)
    requires i < j < |targets| && targets[i].image == targets[j].image
    ensures exists env: Env, s: Scan :: env.targets == targets && Complete(env, s) && !Agrees(s)
  {
    var image := (k: nat) => ImageScan(false, false, if k == i then Broken("unknown") else NoResult);
    var env := Env(targets, None, image, true, Some(MisconfigNone), None);
    var s := Scan("", seq(|targets|, k requires 0 <= k < |targets| => CoverageOf(targets[k], env.image(k))),
                  TargetsOf(env, |targets|), "", 0);
    TargetsKeys(env, |targets|, targets[i].image);
    assert env.targets[j].image == targets[i].image && !env.image(j).answer.Broken?;
    assert Complete(env, s);
    assert !s.images[i].scanned && s.images[i].image in s.imageTargets;
    assert !Agrees(s);
  }

  const FIRST := Line("targets", 0, 0, "")

  /** What the run says of one image: that it waits for the cache, and that the scan starts. */
  function Waiting(t: Target, s: ImageScan, n: nat, total: nat): seq<Line> {
    if s.waits then [Line("waitingCache", n, total, t.image)] else []
  }

  function Scanning(t: Target, s: ImageScan, n: nat, total: nat): seq<Line> {
    if s.answer == Interrupted then [] else [Line("images", n, total, t.image)]
  }

  /** The run's own progress for the first `n` images. */
  function ImageLines(env: Env, n: nat): seq<Line>
    requires n <= |env.targets|
  {
    if n == 0 then []
    else
      var t, s, total := env.targets[n - 1], env.image(n - 1), |env.targets|;
      ImageLines(env, n - 1) + Waiting(t, s, n, total) + Scanning(t, s, n, total)
  }

  function Lines(env: Env): seq<Line> {
    [FIRST] + ImageLines(env, |env.targets|) + Last(env)
  }

  function Last(env: Env): seq<Line> {
    (if env.early then [] else [Line("misconfig", 0, 0, "")]) + [Line("enrich", 0, 0, ""), Line("saving", 0, 0, "")]
  }

  // ---- The run ----

  /** scanOneImage: no coverage entry exactly when the context is done. */
  method ScanOneImage(ctx: Context, gate: Gate, other: MisconfigScan, t: Target, s: ImageScan, n: nat, total: nat,
                      ghost from: nat, ghost held: bool)
    returns (cov: Option<Coverage>, findings: Option<seq<Finding>>)
    requires other.Fair(gate) && !gate.closed && gate.imagesActive && other.Since(gate, from, held)
    modifies ctx, gate`sent, gate`byRun, gate`late, other
    ensures other.Fair(gate) && other.Since(gate, from, held)
    ensures other.turn - old(other.turn) == |gate.Mine()| - |old(gate.Mine())|
    ensures cov.None? <==> ctx.done
    ensures cov.Some? ==> s.answer != Interrupted && cov.value == CoverageOf(t, s) && !old(ctx.done)
    ensures cov.Some? ==> findings == if s.answer.Broken? then None else Some(FindingsOf(s))
    ensures gate.Mine() == old(gate.Mine()) + Waiting(t, s, n, total) + Scanning(t, s, n, total)
  {
    hide MisconfigScan.Fair, MisconfigScan.Since;
    if s.waits {
      other.Report(gate, Line("waitingCache", n, total, t.image), from, held);
    }
    if s.answer == Interrupted {
      ctx.Interrupted();
    } else {
      other.Report(gate, Line("images", n, total, t.image), from, held);
    }
    var cancelled := ctx.Err();
    if cancelled {
      return None, None;
    }
    match s.answer
    case Broken(reason) =>
      var why := reason;
      if s.pullSecretForbidden {
        why := "pullSecretForbidden";
      }
      return Some(Coverage(t.image, false, why, "")), None;
    case Answered(fs, os) => return Some(Coverage(t.image, true, "", os)), Some(fs);
    case NoResult => return Some(Coverage(t.image, true, "", "")), Some([]);
  }

  method CountFailed(images: seq<Coverage>) returns (failed: nat)
    ensures failed == FailedIn(images)
  {
    failed := 0;
    for i := 0 to |images|
      invariant failed == FailedIn(images[..i])
    {
      assert images[..i + 1][..i] == images[..i];
      if !images[i].scanned {
        failed := failed + 1;
      }
    }
    assert images[..|images|] == images;
  }

  /** How often the run uses the gate while images are scanned: once a line, and once to end it. */
  function ImageUses(env: Env, mine: seq<Line>): nat
    requires mine != []
  {
    (if |mine| - 1 < |ImageLines(env, |env.targets|)| then |mine| - 1 else |ImageLines(env, |env.targets|)|) + 1
  }

  /**
   * A run that returns a scan has saved exactly that scan, once, complete; a run
   * caught by any check for cancellation, or failing, saves nothing. Whatever the
   * misconfig goroutine does meanwhile, the run's own lines come through in their
   * order and the others are misconfig lines; one of these comes through during the
   * images if and only if it was looked for before they began, and is put before they
   * end or the run returns. After the return there are no more lines at all.
   */
  method RunClusterScan(ctx: Context, id: string, env: Env, gate: Gate, other: MisconfigScan, history: History)
    returns (r: Outcome, ghost atReturn: seq<Line>)
    requires !ctx.done && !gate.closed && !gate.imagesActive && gate.sent == [] && gate.byRun == [] && gate.late == 0
    requires other.pending == None
    modifies ctx, gate, other, history
    ensures ctx.done <==> r == Cancelled
    ensures if r.Ok?
      then Complete(env, r.scan) && TellsMisconfigs(env, r.scan) && r.scan.id == id
           && history.saved == old(history.saved) + [(r.scan, Meta(id, FailedIn(r.scan.images)))]
      else history.saved == old(history.saved)
    ensures r.Ok? ==> env.listError.None? && env.saveError.None?
    ensures r.Failed? ==> env.listError.Some? || env.saveError.Some?
    ensures other.Fair(gate) && [FIRST] <= gate.Mine() <= Lines(env) && (r.Ok? ==> gate.Mine() == Lines(env))
    ensures gate.closed && gate.sent == atReturn
    ensures var began := old(other.turn) + 1;
      gate.late == One(env.listError.None? && HeldAfter(other.moves(began - 1), false, false)
                       && PutIn(other.moves, began, began + ImageUses(env, gate.Mine())))
  {
    hide ImageLines, Last, MisconfigScan.Fair, MisconfigScan.Since, HeldAfter, PutIn, FailedIn, Complete;
    ghost var began := other.turn + 1;
    ghost var held := HeldAfter(other.moves(began - 1), false, false);
    r := Body(ctx, id, env, gate, other, history);
    atReturn := Leave(gate, other, began, held);
  }

  /** The goroutine's moves before the gate is closed, and after. */
  method Leave(gate: Gate, other: MisconfigScan, ghost from: nat, ghost held: bool) returns (ghost atReturn: seq<Line>)
    requires other.Fair(gate) && !gate.closed && (gate.imagesActive ==> other.Since(gate, from, held))
    modifies other, gate`sent, gate`byRun, gate`late, gate`closed
    ensures other.Fair(gate) && gate.Mine() == old(gate.Mine())
    ensures gate.closed && gate.sent == atReturn
    ensures gate.late == if gate.imagesActive then One(held && PutIn(other.moves, from, old(other.turn) + 1)) else old(gate.late)
  {
    if gate.imagesActive {
      PutInLater(other.moves, from, other.turn);
    }
    other.Go(gate);
    gate.Close();
    atReturn := gate.sent;
    other.Go(gate);
  }

  /** Where the images were left, or ended: what came through late until then. */
  ghost predicate ImagesLeft(env: Env, gate: Gate, other: MisconfigScan, from: nat, held: bool)
    reads gate, other
  {
    var lines, mine := ImageLines(env, |env.targets|), gate.Mine();
    if gate.imagesActive then
      other.Since(gate, from, held) && 0 < |mine| <= |lines| + 1 && other.turn == from + |mine| - 1
    else
      |mine| > |lines| && gate.late == One(held && PutIn(other.moves, from, from + |lines| + 1))
  }

  method Body(ctx: Context, id: string, env: Env, gate: Gate, other: MisconfigScan, history: History) returns (r: Outcome)
    requires !ctx.done && !gate.closed && !gate.imagesActive && gate.sent == [] && gate.byRun == [] && gate.late == 0
    requires other.pending == None
    modifies ctx, gate`sent, gate`byRun, gate`late, gate`imagesActive, other, history
    ensures ctx.done <==> r == Cancelled
    ensures if r.Ok?
      then Complete(env, r.scan) && TellsMisconfigs(env, r.scan) && r.scan.id == id
           && history.saved == old(history.saved) + [(r.scan, Meta(id, FailedIn(r.scan.images)))]
      else history.saved == old(history.saved)
    ensures r.Ok? ==> env.listError.None? && env.saveError.None?
    ensures r.Failed? ==> env.listError.Some? || env.saveError.Some?
    ensures other.Fair(gate) && [FIRST] <= gate.Mine() <= Lines(env) && (r.Ok? ==> gate.Mine() == Lines(env))
    ensures env.listError.Some? ==> !gate.imagesActive && gate.late == 0
    ensures env.listError.None? ==>
      ImagesLeft(env, gate, other, old(other.turn) + 1, HeldAfter(other.moves(old(other.turn)), false, false))
  {
    hide ImageLines, Last, FailedIn, HeldAfter, PutIn, MisconfigScan.Since;
    var scan := Scan(id, [], map[], "", 0);
    gate.Send(FIRST, true);
    LinesGrow(env, 0);
    if env.listError.Some? {
      var c := ctx.Err();
      return if c then Cancelled else Failed(env.listError.value);
    }
    var images, targets := ScanImages(ctx, env, gate, other);
    if images.None? {
      return Cancelled;
    }
    scan := scan.(images := images.value, imageTargets := targets);
    r := Wind(ctx, env, gate, other, history, scan);
  }

  /** What the first `n` targets leave. */
  predicate Covered(env: Env, n: nat, images: seq<Coverage>, targets: map<string, seq<Finding>>) {
    && n == |images| <= |env.targets| && targets == TargetsOf(env, n)
    && (forall i :: 0 <= i < n ==> images[i] == CoverageOf(env.targets[i], env.image(i)))
  }

  /** The image loop: every target once, in order, unless the run is cancelled. */
  method ScanImages(ctx: Context, env: Env, gate: Gate, other: MisconfigScan)
    returns (images: Option<seq<Coverage>>, targets: map<string, seq<Finding>>)
    requires !ctx.done && !gate.closed && !gate.imagesActive && other.Fair(gate) && gate.late == 0 && gate.Mine() == [FIRST]
    requires other.pending == None
    modifies ctx, gate`sent, gate`byRun, gate`late, gate`imagesActive, other
    ensures images.None? <==> ctx.done
    ensures images.Some? ==> Covered(env, |env.targets|, images.value, targets)
    ensures other.Fair(gate) && [FIRST] <= gate.Mine() <= Lines(env)
    ensures images.Some? ==> !gate.imagesActive && gate.Mine() == [FIRST] + ImageLines(env, |env.targets|)
    ensures ImagesLeft(env, gate, other, old(other.turn) + 1, HeldAfter(other.moves(old(other.turn)), false, false))
  {
    hide ImageLines, Last, Covered, HeldAfter, MisconfigScan.Fair, MisconfigScan.Since;
    NoImages(env);
    ghost var from, held := other.turn + 1, HeldAfter(other.moves(other.turn), false, false);
    BeginImages(gate, other, held);
    var covered: seq<Coverage> := [];
    targets := map[];
    for n := 0 to |env.targets|
      invariant !ctx.done && Covered(env, n, covered, targets)
      invariant other.Fair(gate) && gate.imagesActive && gate.Mine() == [FIRST] + ImageLines(env, n)
      invariant other.Since(gate, from, held) && other.turn == from + |gate.Mine()| - 1
    {
      LinesGrow(env, n);
      LinesGrow(env, n + 1);
      var go;
      go, covered, targets := NextImage(ctx, env, gate, other, n, covered, targets, from, held);
      if !go {
        return None, targets;
      }
    }
    LinesGrow(env, |env.targets|);
    EndImages(gate, other, from, held);
    images := Some(covered);
  }

  method BeginImages(gate: Gate, other: MisconfigScan, ghost held: bool)
    requires other.Fair(gate) && !gate.imagesActive && gate.late == 0 && other.pending == None
    requires held == HeldAfter(other.moves(other.turn), false, false)
    modifies other, gate`sent, gate`byRun, gate`late, gate`imagesActive
    ensures gate.imagesActive && other.Fair(gate) && gate.Mine() == old(gate.Mine())
    ensures other.turn == old(other.turn) + 1 && other.Since(gate, other.turn, held)
  {
    other.Go(gate);
    gate.SetImagesActive(true);
  }

  method EndImages(gate: Gate, other: MisconfigScan, ghost from: nat, ghost held: bool)
    requires other.Fair(gate) && !gate.closed && gate.imagesActive && other.Since(gate, from, held)
    modifies other, gate`sent, gate`byRun, gate`late, gate`imagesActive
    ensures !gate.imagesActive && other.Fair(gate) && gate.Mine() == old(gate.Mine())
    ensures gate.late == One(held && PutIn(other.moves, from, old(other.turn) + 1))
  {
    PutInLater(other.moves, from, other.turn);
    other.Go(gate);
    gate.SetImagesActive(false);
  }

  /** One turn of the loop: the check for cancellation, and the scan of one image. */
  method NextImage(ctx: Context, env: Env, gate: Gate, other: MisconfigScan, n: nat,
                   covered: seq<Coverage>, targets: map<string, seq<Finding>>, ghost from: nat, ghost held: bool)
    returns (go: bool, now: seq<Coverage>, found: map<string, seq<Finding>>)
    requires !ctx.done && n < |env.targets| && Covered(env, n, covered, targets)
    requires other.Fair(gate) && !gate.closed && gate.imagesActive && other.Since(gate, from, held)
    requires gate.Mine() == [FIRST] + ImageLines(env, n) && other.turn == from + |gate.Mine()| - 1
    modifies ctx, gate`sent, gate`byRun, gate`late, other
    ensures go <==> !ctx.done
    ensures other.Fair(gate) && other.Since(gate, from, held) && other.turn == from + |gate.Mine()| - 1
    ensures go ==> Covered(env, n + 1, now, found) && gate.Mine() == [FIRST] + ImageLines(env, n + 1)
    ensures [FIRST] <= gate.Mine() <= [FIRST] + ImageLines(env, n + 1)
  {
    hide ImageLines, TargetsOf, CoverageOf, FindingsOf, Waiting, Scanning, MisconfigScan.Fair, MisconfigScan.Since;
    OneMoreImage(env, n);
    now, found := covered, targets;
    go := false;
    var c := ctx.Err();
    if c {
      return;
    }
    var cov, findings := ScanOneImage(ctx, gate, other, env.targets[n], env.image(n), n + 1, |env.targets|, from, held);
    if cov.None? {
      return;
    }
    now := covered + [cov.value];
    if findings.Some? {
      found := targets[env.targets[n].image := findings.value];
    }
    go := true;
  }

  lemma NoImages(env: Env)
    ensures ImageLines(env, 0) == [] && Covered(env, 0, [], map[])
  {
  }

  lemma OneMoreImage(env: Env, n: nat)
    requires n < |env.targets|
    ensures ImageLines(env, n + 1) == ImageLines(env, n)
      + Waiting(env.targets[n], env.image(n), n + 1, |env.targets|) + Scanning(env.targets[n], env.image(n), n + 1, |env.targets|)
    ensures TargetsOf(env, n + 1) == if env.image(n).answer.Broken? then TargetsOf(env, n)
      else TargetsOf(env, n)[env.targets[n].image := FindingsOf(env.image(n))]
  {
  }

  lemma {:induction false} LinesGrow(env: Env, n: nat)
    requires n <= |env.targets|
    ensures [FIRST] + ImageLines(env, n) <= [FIRST] + ImageLines(env, |env.targets|) <= Lines(env)
    decreases |env.targets| - n
  {
    if n < |env.targets| {
      LinesGrow(env, n + 1);
    }
  }

  /** After the images: the misconfig outcome, enrichment, the stamp and the save. */
  method Wind(ctx: Context, env: Env, gate: Gate, other: MisconfigScan, history: History, images: Scan) returns (r: Outcome)
    requires !ctx.done && !gate.closed && !gate.imagesActive && other.Fair(gate)
    modifies ctx, gate`sent, gate`byRun, gate`late, other, history
    ensures ctx.done <==> r == Cancelled
    ensures if r.Ok?
      then r.scan.images == images.images && r.scan.imageTargets == images.imageTargets && r.scan.id == images.id
           && (images.misconfigError == "" && images.resourceCount == 0 ==> TellsMisconfigs(env, r.scan))
           && history.saved == old(history.saved) + [(r.scan, Meta(images.id, FailedIn(images.images)))]
      else history.saved == old(history.saved)
    ensures r.Ok? ==> env.saveError.None?
    ensures r.Failed? ==> env.saveError.Some?
    ensures other.Fair(gate) && old(gate.Mine()) <= gate.Mine() <= old(gate.Mine()) + Last(env)
    ensures (r.Ok? ==> gate.Mine() == old(gate.Mine()) + Last(env)) && gate.late == old(gate.late)
  {
    hide MisconfigScan.Fair, FailedIn, Last;
    LastLines(env, gate.Mine());
    var ok, scan := AwaitMisconfig(ctx, env, gate, other, images);
    if !ok {
      return Cancelled;
    }
    other.Tell(gate, Line("enrich", 0, 0, ""));
    var c := ctx.Err();
    if c {
      return Cancelled;
    }
    c := ctx.Err();
    if c {
      return Cancelled;
    }
    other.Tell(gate, Line("saving", 0, 0, ""));
    r := Store(history, scan, env.saveError);
  }

  lemma LastLines(env: Env, lines: seq<Line>)
    ensures var a := lines + (if env.early then [] else [Line("misconfig", 0, 0, "")]);
      var b := a + [Line("enrich", 0, 0, "")];
      var c := b + [Line("saving", 0, 0, "")];
      c == lines + Last(env) && lines <= a && a <= b && b <= c && a <= c && lines <= b && lines <= c
  {
  }

  method Store(history: History, scan: Scan, error: Option<string>) returns (r: Outcome)
    modifies history
    ensures if error.None?
      then r == Ok(scan) && history.saved == old(history.saved) + [(scan, Meta(scan.id, FailedIn(scan.images)))]
      else r == Failed(error.value) && history.saved == old(history.saved)
  {
    hide FailedIn;
    var failed := CountFailed(scan.images);
    history.Save(scan, Meta(scan.id, failed), error);
    r := if error.Some? then Failed(error.value) else Ok(scan);
  }

  /** Waits for the misconfig scan; a cancellation ends the wait. */
  method AwaitMisconfig(ctx: Context, env: Env, gate: Gate, other: MisconfigScan, images: Scan) returns (ok: bool, scan: Scan)
    requires !ctx.done && !gate.closed && !gate.imagesActive && other.Fair(gate)
    modifies ctx, gate`sent, gate`byRun, gate`late, other
    ensures ok <==> !ctx.done
    ensures ok ==> env.misconfig.Some? && scan == Noted(images, env.misconfig.value)
    ensures other.Fair(gate) && gate.late == old(gate.late)
    ensures gate.Mine() == old(gate.Mine()) + if env.early then [] else [Line("misconfig", 0, 0, "")]
  {
    hide MisconfigScan.Fair;
    scan, ok := images, false;
    if !env.early {
      other.Tell(gate, Line("misconfig", 0, 0, ""));
    }
    if env.misconfig.None? {
      ctx.Interrupted();
      return;
    }
    var c := ctx.Err();
    if c {
      return;
    }
    ok := true;
    match env.misconfig.value {
      case MisconfigFailed(err) => scan := scan.(misconfigError := err);
      case MisconfigDone(count) => scan := scan.(resourceCount := count);
      case MisconfigNone =>
    }
  }

  function Noted(s: Scan, m: Misconfigs): Scan {
    match m
    case MisconfigFailed(err) => s.(misconfigError := err)
    case MisconfigDone(count) => s.(resourceCount := count)
    case MisconfigNone => s
  }

  // ---- A late line ----

  /** A line looked for just before the images of one target begin, and put while it is being scanned. */
  method LateLine() returns (gate: Gate, r: Outcome, ghost atReturn: seq<Line>)
    ensures fresh(gate) && gate.late == 1
  {
    gate := new Gate();
    var other := new MisconfigScan(n => if n == 0 then [Look(1, 2, "")] else if n == 1 then [Put] else []);
    var ctx := new Context(n => false);
    var history := new History();
    var env := Env([Target("nginx")], None, n => ImageScan(false, false, NoResult), true, Some(MisconfigNone), None);
    assert Put in other.moves(1);
    r, atReturn := RunClusterScan(ctx, "scan", env, gate, other, history);
  }
}
