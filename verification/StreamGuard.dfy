/**
 The streaming guard of internal/ai/agent.go: what is shown of
 a reply while it streams is a function of the text so far, and after the flush it
 is the whole text, for every way the reply is cut into chunks.
 */
module StreamGuard {
  import opened Text
  import Utf16

  const FENCE := "```"

  /** A hold starts here: an opening brace, or three backticks. */
  predicate HoldAt(s: string, i: int) {
    BraceAt(s, i) || TicksAt(s, i)
  }

  predicate BraceAt(s: string, i: int) {
    0 <= i < |s| && s[i] == '{'
  }

  predicate TicksAt(s: string, i: int) {
    0 <= i && i + 3 <= |s| && s[i] == '`' && s[i + 1] == '`' && s[i + 2] == '`'
  }

  lemma OccursMeansHold(s: string, i: int)
    ensures OccursAt(s, "{", i) <==> BraceAt(s, i)
    ensures OccursAt(s, FENCE, i) <==> TicksAt(s, i)
  {
    if 0 <= i < |s| {
      assert s[i..i + 1] == [s[i]];
    }
    if 0 <= i && i + 3 <= |s| {
      assert s[i..i + 3] == [s[i], s[i + 1], s[i + 2]];
    }
  }

  /** The first position at or after from that starts a hold, or |s|. */
  function FirstHoldFrom(s: string, from: nat): (h: nat)
    requires from <= |s|
    ensures from <= h <= |s|
    decreases |s| - from
  {
    if from == |s| || HoldAt(s, from) then from else FirstHoldFrom(s, from + 1)
  }

  function FirstHold(s: string): (h: nat)
    ensures h <= |s|
  {
    FirstHoldFrom(s, 0)
  }

  lemma FirstHoldIsFirst(s: string, from: nat)
    requires from <= |s|
    ensures FirstHoldFrom(s, from) < |s| ==> HoldAt(s, FirstHoldFrom(s, from))
    ensures forall i :: from <= i < FirstHoldFrom(s, from) ==> !HoldAt(s, i)
    decreases |s| - from
  {
    if from < |s| && !HoldAt(s, from) {
      FirstHoldIsFirst(s, from + 1);
    }
  }

  lemma FirstHoldUnique(s: string, h: nat)
    requires h <= |s| && (h < |s| ==> HoldAt(s, h))
    requires forall i :: 0 <= i < h ==> !HoldAt(s, i)
    ensures FirstHold(s) == h
  {
    FirstHoldIsFirst(s, 0);
  }

  /** Where Write cuts: at the earlier of the first brace and the first fence. */
  method CutPoint(s: string) returns (cut: int)
    ensures cut == if FirstHold(s) < |s| then FirstHold(s) else -1
  {
    cut := Index(s, "{", 0);
    var f := Index(s, FENCE, 0);
    forall i
      ensures HoldAt(s, i) == (OccursAt(s, "{", i) || OccursAt(s, FENCE, i))
    {
      OccursMeansHold(s, i);
    }
    if f >= 0 && (cut < 0 || f < cut) {
      cut := f;
    }
    FirstHoldUnique(s, if cut < 0 then |s| else cut);
  }

  /** What may be shown of a reply while it is still arriving: everything before the
      first hold or, when there is none yet, everything but the trailing backticks. */
  function Prose(s: string): (p: string)
    ensures p <= s
  {
    if FirstHold(s) < |s| then s[..FirstHold(s)] else TrimRight(s, '`')
  }

  /** At most two backticks are ever withheld from a reply without a hold. */
  lemma AtMostTwoTicksWithheld(s: string)
    requires FirstHold(s) == |s|
    ensures |s| - |Prose(s)| <= 2
    ensures forall i :: |Prose(s)| <= i < |s| ==> s[i] == '`'
  {
    FirstHoldIsFirst(s, 0);
    assert |s| >= 3 ==> !HoldAt(s, |s| - 3);
  }

  lemma ProseEnd(s: string)
    ensures FirstHold(s) == |s| && Prose(s) != "" ==> Prose(s)[|Prose(s)| - 1] != '`'
  {
  }

  /** A hold found after more text has arrived was already the first hold of what
      was pending: text that was let through never becomes part of one. */
  lemma FirstHoldAfter(p: string, pending: string, c: string)
    requires FirstHold(p + pending) == |p + pending| && pending <= c
    requires p != "" ==> p[|p| - 1] != '`'
    ensures FirstHold(p + c) == |p| + FirstHold(c)
  {
    var s := p + c;
    FirstHoldIsFirst(p + pending, 0);
    FirstHoldIsFirst(c, 0);
    forall i | 0 <= i < |p| + FirstHold(c)
      ensures !HoldAt(s, i)
    {
      if i < |p| {
        assert !HoldAt(p + pending, i);
        assert (p + pending)[i] == s[i];
        assert s[|p| - 1] != '`';
        assert forall j :: 0 <= j < |p| ==> s[j] == (p + pending)[j];
      } else {
        assert HoldAt(s, i) == HoldAt(c, i - |p|);
      }
    }
    var g := FirstHold(c);
    assert g < |c| ==> HoldAt(s, |p| + g) == HoldAt(c, g);
    FirstHoldUnique(s, |p| + g);
  }

  /** The prose of a longer reply extends the prose already shown. */
  lemma ProseAfter(p: string, pending: string, c: string)
    requires FirstHold(p + pending) == |p + pending| && pending <= c
    requires p != "" ==> p[|p| - 1] != '`'
    ensures Prose(p + c) == p + Prose(c)
  {
    FirstHoldAfter(p, pending, c);
    hide FirstHold;
    if FirstHold(c) < |c| {
      assert (p + c)[..|p| + FirstHold(c)] == p + c[..FirstHold(c)];
    } else {
      TrimRightAfter(p, c, '`');
    }
  }

  /** Once a hold has started, later text does not move it. */
  lemma HoldIsFinal(s: string, more: string)
    requires FirstHold(s) < |s|
    ensures FirstHold(s + more) == FirstHold(s)
    ensures Prose(s + more) == Prose(s)
  {
    var h, m := FirstHold(s), s + more;
    FirstHoldIsFirst(s, 0);
    assert forall i :: 0 <= i < |s| ==> m[i] == s[i];
    forall i | 0 <= i < h
      ensures !HoldAt(m, i)
    {
      assert !HoldAt(s, i);
      // A fence running over the end of s would cover the hold, which is then a brace.
      assert i + 3 > |s| ==> BraceAt(s, h) && m[h] == '{';
    }
    FirstHoldUnique(m, h);
    assert m[..h] == s[..h];
  }

  /** A paragraph break goes in front of text that follows an earlier iteration's. */
  function Shown(separate: bool, t: string): string {
    if t == "" then "" else if separate then "\n\n" + t else t
  }

  /** Showing more prose either appends it or, if nothing was shown yet, starts with it. */
  lemma ShownAfter(separate: bool, p: string, piece: string)
    ensures Shown(separate, TrimLeft(p + piece)) ==
            if TrimLeft(p) != "" then Shown(separate, TrimLeft(p)) + piece else Shown(separate, TrimLeft(piece))
    ensures TrimLeft(p + piece) != "" <==> TrimLeft(p) != "" || TrimLeft(piece) != ""
  {
    TrimLeftConcat(p, piece);
    if TrimLeft(p) != "" && separate {
      assert "\n\n" + (TrimLeft(p) + piece) == ("\n\n" + TrimLeft(p)) + piece;
    }
  }

  /** The guard's fields as functions of the text received so far, whatever the
      chunks were: sent is the trimmed prose, and what is not sent is held or ticks. */
  ghost predicate Tracks(separate: bool, all: string, sent: string, held: string, ticks: string,
                         holding: bool, started: bool)
  {
    && sent == Shown(separate, TrimLeft(Prose(all)))
    && started == (TrimLeft(Prose(all)) != "")
    && holding == (FirstHold(all) < |all|)
    && all == Prose(all) + ticks + held
    && (if holding then ticks == "" else held == "")
  }

  /** Out's effect on what was sent. */
  function Sent(separate: bool, sent: string, started: bool, piece: string): string {
    if started then sent + piece else Shown(separate, TrimLeft(piece))
  }

  lemma StartedMeansSent(separate: bool, all: string, sent: string, held: string, ticks: string,
                         holding: bool, started: bool)
    requires Tracks(separate, all, sent, held, ticks, holding, started)
    ensures started == (sent != "")
  {
  }

  lemma HoldingStep(separate: bool, all: string, sent: string, held: string, ticks: string, started: bool,
                    chunk: string)
    requires Tracks(separate, all, sent, held, ticks, true, started)
    ensures Tracks(separate, all + chunk, sent, held + chunk, ticks, true, started)
  {
    hide FirstHold, TrimLeft, Shown, Prose;
    HoldIsFinal(all, chunk);
  }

  /** One chunk while nothing is held: c is the withheld ticks and the chunk, cut is
      where a hold starts in c, if one does. */
  lemma FlowingStep(separate: bool, all: string, sent: string, ticks: string, started: bool, chunk: string,
                    cut: nat, piece: string)
    requires Tracks(separate, all, sent, "", ticks, false, started)
    requires cut == FirstHold(ticks + chunk)
    requires piece == if cut < |ticks + chunk| then (ticks + chunk)[..cut] else TrimRight(ticks + chunk, '`')
    ensures var rest := (ticks + chunk)[|piece|..];
            Tracks(separate, all + chunk, Sent(separate, sent, started, piece),
                   if cut < |ticks + chunk| then rest else "", if cut < |ticks + chunk| then "" else rest,
                   cut < |ticks + chunk|, started || TrimLeft(piece) != "")
  {
    hide FirstHold, TrimLeft, TrimRight, Shown, Prose, Tracks, Sent;
    TracksParts(separate, all, sent, "", ticks, false, started);
    FlowingText(all, ticks, chunk, cut, piece);
    SentAfter(separate, Prose(all), sent, started, piece);
    var rest := (ticks + chunk)[|piece|..];
    TracksFrom(separate, all + chunk, Sent(separate, sent, started, piece), if cut < |ticks + chunk| then rest else "",
               if cut < |ticks + chunk| then "" else rest, cut < |ticks + chunk|, started || TrimLeft(piece) != "");
  }

  /** The text's own part of one flowing chunk: the piece is what the prose gains. */
  lemma FlowingText(all: string, ticks: string, chunk: string, cut: nat, piece: string)
    requires FirstHold(all) == |all| && all == Prose(all) + ticks && cut == FirstHold(ticks + chunk)
    requires piece == if cut < |ticks + chunk| then (ticks + chunk)[..cut] else TrimRight(ticks + chunk, '`')
    ensures piece <= ticks + chunk && Prose(all + chunk) == Prose(all) + piece
    ensures FirstHold(all + chunk) == |all + chunk| <==> cut == |ticks + chunk|
    ensures all + chunk == Prose(all) + piece + (ticks + chunk)[|piece|..]
  {
    hide FirstHold, TrimRight, Prose;
    var p, c := Prose(all), ticks + chunk;
    assert all + chunk == p + c;
    ProseEnd(all);
    FirstHoldAfter(p, ticks, c);
    ProseAfter(p, ticks, c);
    PieceIsProse(c, piece);
  }

  lemma TracksParts(separate: bool, all: string, sent: string, held: string, ticks: string, holding: bool, started: bool)
    requires Tracks(separate, all, sent, held, ticks, holding, started)
    ensures sent == Shown(separate, TrimLeft(Prose(all))) && started == (TrimLeft(Prose(all)) != "")
    ensures holding == (FirstHold(all) < |all|) && all == Prose(all) + ticks + held
  {
    hide FirstHold, TrimLeft, Shown, Prose;
  }

  lemma TracksFrom(separate: bool, all: string, sent: string, held: string, ticks: string, holding: bool, started: bool)
    requires sent == Shown(separate, TrimLeft(Prose(all))) && started == (TrimLeft(Prose(all)) != "")
    requires holding == (FirstHold(all) < |all|) && all == Prose(all) + ticks + held
    requires if holding then ticks == "" else held == ""
    ensures Tracks(separate, all, sent, held, ticks, holding, started)
  {
    hide FirstHold, TrimLeft, Shown, Prose;
  }

  lemma SentAfter(separate: bool, p: string, sent: string, started: bool, piece: string)
    requires sent == Shown(separate, TrimLeft(p)) && started == (TrimLeft(p) != "")
    ensures Sent(separate, sent, started, piece) == Shown(separate, TrimLeft(p + piece))
    ensures TrimLeft(p + piece) != "" <==> started || TrimLeft(piece) != ""
  {
    hide TrimLeft, Shown;
    ShownAfter(separate, p, piece);
  }

  lemma PieceIsProse(c: string, piece: string)
    requires piece == if FirstHold(c) < |c| then c[..FirstHold(c)] else TrimRight(c, '`')
    ensures piece == Prose(c) && piece <= c && c == piece + c[|piece|..]
  {
  }

  lemma FlushStep(separate: bool, all: string, sent: string, held: string, ticks: string, holding: bool,
                  started: bool)
    requires Tracks(separate, all, sent, held, ticks, holding, started)
    ensures Sent(separate, sent, started, ticks + held) == Shown(separate, TrimLeft(all))
  {
    hide FirstHold, TrimLeft, TrimRight, Shown, Prose;
    ShownAfter(separate, Prose(all), ticks + held);
    assert all == Prose(all) + (ticks + held);
  }

  /** The panel's text, in UTF-16 code units, and whether this turn has put any there. */
  class Screen {
    var units: seq<nat>
    var emitted: bool

    constructor (shown: seq<nat>)
      ensures units == shown && !emitted
    {
      units, emitted := shown, false;
    }

    method Emit(s: string)
      modifies this
      ensures units == old(units) + Utf16.Encode(s)
      ensures emitted
    {
      units := units + Utf16.Encode(s);
      emitted := true;
    }

    /** What was shown since `base` is taken back whole, whatever text it was, by its length in units alone. */
    method Retract(n: nat, emittedBefore: bool)
      requires n <= |units|
      modifies this
      ensures forall base: seq<nat>, t: string :: old(units) == base + Utf16.Encode(t) && n == |Utf16.Encode(t)| ==> units == base
      ensures units <= old(units) && |units| == |old(units)| - n
      ensures emitted == emittedBefore
    {
      units := units[..|units| - n];
      emitted := emittedBefore;
    }
  }

  class Guard {
    const screen: Screen
    const separate: bool
    ghost const base: seq<nat>
    var all: string
    var sent: string
    var held: string
    var ticks: string
    var holding: bool
    var started: bool

    ghost predicate Valid()
      reads this, screen
    {
      Tracks(separate, all, sent, held, ticks, holding, started) && OnScreen()
    }

    /** sent is exactly what the screen gained since the iteration began. */
    ghost predicate OnScreen()
      reads this, screen
    {
      && screen.units == base + Utf16.Encode(sent)
      && screen.emitted == (separate || sent != "")
    }

    constructor (screen: Screen)
      ensures Valid() && all == ""
      ensures this.screen == screen && separate == screen.emitted && base == screen.units
    {
      this.screen, separate := screen, screen.emitted;
      base := screen.units;
      all, sent, held, ticks := "", "", "", "";
      holding, started := false, false;
    }

    method Out(piece: string)
      requires OnScreen() && started == (sent != "")
      modifies this`sent, this`started, screen
      ensures OnScreen()
      ensures started == (old(started) || TrimLeft(piece) != "")
      ensures sent == Sent(separate, old(sent), old(started), piece)
    {
      var s := piece;
      if !started {
        s := TrimLeft(s);
        if s == "" {
          return;
        }
        started := true;
        if separate {
          s := "\n\n" + s;
        }
      }
      if s != "" {
        Utf16.EncodeConcat(sent, s);
        sent := sent + s;
        screen.Emit(s);
      } else {
        assert sent == sent + s;
      }
    }

    method Write(chunk: string)
      requires Valid()
      modifies this, screen
      ensures Valid()
      ensures all == old(all) + chunk
    {
      hide Tracks, Utf16.Encode, FirstHold, TrimLeft, TrimRight, Sent;
      if chunk == "" {
        assert all == all + chunk;
        return;
      }
      StartedMeansSent(separate, all, sent, held, ticks, holding, started);
      if holding {
        HoldingStep(separate, all, sent, held, ticks, started, chunk);
        all := all + chunk;
        held := held + chunk;
        return;
      }
      var c := ticks + chunk;
      var cut := CutPoint(c);
      var piece := if cut >= 0 then c[..cut] else TrimRight(c, '`');
      NothingHeld(separate, all, sent, held, ticks, started);
      FlowingStep(separate, all, sent, ticks, started, chunk, FirstHold(c), piece);
      all := all + chunk;
      if cut >= 0 {
        holding := true;
        held := held + c[cut..];
        assert held == c[cut..];
        ticks := "";
      } else {
        // The trailing backticks are what Prose leaves out of a text without a hold.
        ticks := c[|piece|..];
      }
      Out(piece);
    }

    /** By how many units the screen has grown since `base`. */
    method Streamed() returns (n: nat)
      requires OnScreen()
      ensures n == |Utf16.Encode(sent)| && n == |screen.units| - |base|
    {
      n := |Utf16.Encode(sent)|;
    }

    /** Afterwards what this iteration put on the screen is all of the trimmed text. */
    method Flush()
      requires Valid()
      modifies this, screen
      ensures all == old(all) && ticks == "" && held == "" && !holding
      ensures sent == Shown(separate, TrimLeft(all)) && OnScreen()
    {
      StartedMeansSent(separate, all, sent, held, ticks, holding, started);
      FlushStep(separate, all, sent, held, ticks, holding, started);
      hide Tracks, Utf16.Encode, TrimLeft, Sent;
      var rest := ticks + held;
      ticks := "";
      held := "";
      holding := false;
      Out(rest);
    }
  }

  lemma NothingHeld(separate: bool, all: string, sent: string, held: string, ticks: string, started: bool)
    requires Tracks(separate, all, sent, held, ticks, false, started)
    ensures held == ""
  {
  }
}
