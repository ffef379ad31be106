/**
 The log pump of internal/services/logServices.go: pieces of whole
 lines where there are any, and a bounded rest held back.
 */
module LogPump {
  import opened Utf8

  const LOG_READ_SIZE := 32 * 1024
  const LOG_MAX_PENDING := 64 * 1024
  const NEWLINE: Byte := 10

  datatype ReadError = None | Eof | Broken(message: string)

  /** One Read: the bytes, its error, and whether the context was over when it returned. */
  datatype Read = Read(data: seq<Byte>, error: ReadError, cancelled: bool)

  /** Why the pump stopped, if it did. */
  datatype Outcome = Running | Ended | Cancelled | Failed(message: string)

  function Flatten(pieces: seq<seq<Byte>>): seq<Byte> {
    if pieces == [] then [] else Flatten(pieces[..|pieces| - 1]) + pieces[|pieces| - 1]
  }

  lemma FlattenSnoc(pieces: seq<seq<Byte>>, p: seq<Byte>)
    ensures Flatten(pieces + [p]) == Flatten(pieces) + p
  {
    assert (pieces + [p])[..|pieces|] == pieces;
  }

  /** The bytes the first n reads delivered. */
  function Bytes(input: seq<Read>, n: nat): seq<Byte>
    requires n <= |input|
  {
    if n == 0 then [] else Bytes(input, n - 1) + input[n - 1].data
  }

  predicate AllValid(pieces: seq<seq<Byte>>) {
    forall k :: 0 <= k < |pieces| ==> Valid(pieces[k])
  }

  lemma {:induction false} FlattenValid(pieces: seq<seq<Byte>>)
    requires AllValid(pieces)
    ensures Valid(Flatten(pieces))
  {
    if pieces != [] {
      FlattenValid(pieces[..|pieces| - 1]);
      ValidConcat(Flatten(pieces[..|pieces| - 1]), pieces[|pieces| - 1]);
    }
  }

  /** bytes.LastIndexByte(b, '\n'). */
  method LastNewline(b: seq<Byte>) returns (i: int)
    ensures -1 <= i < |b|
    ensures i >= 0 ==> b[i] == NEWLINE
    ensures forall k :: i < k < |b| ==> b[k] != NEWLINE
  {
    i := |b| - 1;
    while i >= 0 && b[i] != NEWLINE
      invariant -1 <= i < |b|
      invariant forall k :: i < k < |b| ==> b[k] != NEWLINE
    {
      i := i - 1;
    }
  }

  /** The last start of a character in b is at i, in its last four bytes. */
  predicate LastStart(b: seq<Byte>, i: int) {
    && 0 <= i < |b| && |b| - 4 <= i && RuneStart(b[i])
    && forall k :: i < k < |b| ==> !RuneStart(b[k])
  }

  /** On any bytes: an incomplete character at the end is cut off, and nothing else. Of the
      beginning of valid text that leaves the longest valid prefix. */
  method RuneBoundary(b: seq<Byte>) returns (cut: nat)
    ensures |b| - 3 <= cut <= |b|
    ensures cut < |b| ==> LastStart(b, cut) && !FullRune(b[cut..])
    ensures cut == |b| ==> forall i :: LastStart(b, i) ==> FullRune(b[i..])
    ensures ValidPrefix(b) ==> Valid(b[..cut])
    ensures ValidPrefix(b) ==> forall n :: cut < n <= |b| ==> !Valid(b[..n])
  {
    var i := |b| - 1;
    while i >= 0 && i >= |b| - 4
      invariant -1 <= i < |b| && i >= |b| - 5
      invariant forall k :: i < k < |b| ==> !RuneStart(b[k])
    {
      if RuneStart(b[i]) {
        CutAtLastStart(b, i);
        if FullRune(b[i..]) {
          return |b|;
        }
        return i;
      }
      i := i - 1;
    }
    NoStartInLastFour(b, i);
    return |b|;
  }

  lemma CutAtLastStart(b: seq<Byte>, i: nat)
    requires i < |b| && |b| - i <= 4 && RuneStart(b[i])
    requires forall k :: i < k < |b| ==> !RuneStart(b[k])
    ensures !FullRune(b[i..]) ==> |b| - 3 <= i
    ensures ValidPrefix(b) ==> Valid(b[..if FullRune(b[i..]) then |b| else i])
    ensures ValidPrefix(b) && !FullRune(b[i..]) ==> forall n :: i < n <= |b| ==> !Valid(b[..n])
  {
    hide RuneStart, SecondByte, Width, Valid, FirstRune, FullRune;
    if !FullRune(b[i..]) {
      ShortOfFull(b[i..]);
    }
    if ValidPrefix(b) {
      var rest :| Valid(b + rest);
      var s := b + rest;
      var j := LastRune(s, |b|);
      assert forall k :: 0 <= k < |b| ==> s[k] == b[k];
      assert i == j && s[..i] == b[..i] && s[i..] == b[i..] + rest;
      FullIffWhole(b[i..], rest);
      if FullRune(b[i..]) {
        var w := FirstRune(s[i..]);
        WholeRune(s[i..]);
        ValidConcat(s[..i], s[i..][..w]);
        assert b[..|b|] == s[..i] + s[i..][..w];
      } else {
        CutRuneInvalid(b, i);
      }
    }
  }

  lemma ShortOfFull(b: seq<Byte>)
    requires b != [] && !FullRune(b)
    ensures |b| <= 3 && |b| < Width(b[0])
  {
  }

  /** At the start of a character FullRune asks exactly whether the character is whole. */
  lemma FullIffWhole(b: seq<Byte>, rest: seq<Byte>)
    requires b != [] && FirstRune(b + rest) > 0
    ensures FullRune(b) <==> |b| >= FirstRune(b + rest)
  {
    assert forall k :: 0 <= k < |b| ==> (b + rest)[k] == b[k];
  }

  lemma CutRuneInvalid(b: seq<Byte>, i: nat)
    requires i < |b| && Valid(b[..i]) && |b| - i < Width(b[i])
    ensures forall n :: i < n <= |b| ==> !Valid(b[..n])
  {
    forall n | i < n <= |b|
      ensures !Valid(b[..n])
    {
      var c := b[i..n];
      assert b[..n] == b[..i] + c && c[0] == b[i];
      ValidConcat(b[..i], c);
    }
  }

  lemma NoStartInLastFour(b: seq<Byte>, i: int)
    requires -1 <= i < |b| && (i < 0 || |b| - i > 4)
    requires forall k :: i < k < |b| ==> !RuneStart(b[k])
    ensures ValidPrefix(b) ==> Valid(b)
    ensures b[..|b|] == b
  {
    if ValidPrefix(b) && b != [] {
      var rest :| Valid(b + rest);
      assert forall k :: 0 <= k < |b| ==> (b + rest)[k] == b[k];
      var j := LastRune(b + rest, |b|);
      assert false;
    }
  }

  /** A newline starts a character of its own, so valid text may be cut behind it. */
  lemma CutBehindNewline(b: seq<Byte>, i: nat)
    requires i < |b| && b[i] == NEWLINE && ValidPrefix(b)
    ensures Valid(b[..i + 1])
  {
    var rest :| Valid(b + rest);
    var s := b + rest;
    ValidSplit(s, i);
    WholeRune(s[i..]);
    ValidConcat(s[..i], s[i..][..1]);
    assert b[..i + 1] == s[..i] + s[i..][..1];
  }

  /** A piece ends a line, is a slice of a line too long to hold, or is the stream's last. */
  predicate GoodPiece(p: seq<Byte>) {
    p != [] && (p[|p| - 1] == NEWLINE || |p| >= LOG_MAX_PENDING - 3)
  }

  /** What is held back between reads: less than a full buffer, and no whole line. */
  predicate Bounded(pending: seq<Byte>) {
    |pending| < LOG_MAX_PENDING && forall k :: 0 <= k < |pending| ==> pending[k] != NEWLINE
  }

  /** Nothing is lost, reordered or repeated, and text stays text. */
  ghost predicate Faithful(read: seq<Byte>, pieces: seq<seq<Byte>>, pending: seq<Byte>) {
    && Flatten(pieces) + pending == read
    && (ValidPrefix(read) ==> AllValid(pieces))
  }

  /** How much of the pending bytes goes out now: all whole lines or, of a line that
      has grown too long, what ends on a character. Zero when there is neither. */
  method Ready(pending: seq<Byte>) returns (cut: nat)
    requires |pending| < LOG_MAX_PENDING + LOG_READ_SIZE
    requires forall k :: 0 <= k < |pending| - LOG_READ_SIZE ==> pending[k] != NEWLINE
    ensures cut <= |pending| && Bounded(pending[cut..])
    ensures cut > 0 ==> GoodPiece(pending[..cut])
    ensures ValidPrefix(pending) ==> Valid(pending[..cut])
  {
    hide Valid, ValidPrefix;
    var i := LastNewline(pending);
    if i >= 0 {
      if ValidPrefix(pending) {
        CutBehindNewline(pending, i);
      }
      cut := i + 1;
    } else if |pending| >= LOG_MAX_PENDING {
      cut := RuneBoundary(pending);
    } else {
      cut := 0;
      NothingIsValid();
    }
  }

  lemma NothingIsValid()
    ensures Valid([])
  {
  }

  /** The body of one read: all that is complete goes out. */
  method Accept(read: seq<Byte>, pieces: seq<seq<Byte>>, pending: seq<Byte>, data: seq<Byte>)
    returns (pieces': seq<seq<Byte>>, pending': seq<Byte>)
    requires Faithful(read, pieces, pending) && Bounded(pending)
    requires 0 < |data| <= LOG_READ_SIZE
    requires forall k :: 0 <= k < |pieces| ==> GoodPiece(pieces[k])
    ensures Faithful(read + data, pieces', pending') && Bounded(pending')
    ensures forall k :: 0 <= k < |pieces'| ==> GoodPiece(pieces'[k])
  {
    hide Flatten, Valid, AllValid, ValidPrefix, GoodPiece;
    pieces', pending' := pieces, pending + data;
    assert Flatten(pieces) + pending' == read + data;
    PendingValid(read + data, pieces, pending');
    ValidAtLeastUntil(read, data);
    var cut := Ready(pending');
    if cut > 0 {
      Emitted(read + data, pieces, pending', cut);
      pieces' := pieces' + [pending'[..cut]];
      pending' := pending'[cut..];
    } else {
      assert pending'[0..] == pending';
    }
  }

  lemma ValidAtLeastUntil(read: seq<Byte>, data: seq<Byte>)
    ensures ValidPrefix(read + data) ==> ValidPrefix(read)
  {
    if ValidPrefix(read + data) {
      ValidPrefixShorter(read, data);
    }
  }

  lemma PendingValid(read: seq<Byte>, pieces: seq<seq<Byte>>, pending: seq<Byte>)
    requires Flatten(pieces) + pending == read
    ensures ValidPrefix(read) && AllValid(pieces) ==> ValidPrefix(pending)
    ensures Valid(read) && AllValid(pieces) ==> Valid(pending)
  {
    if AllValid(pieces) {
      FlattenValid(pieces);
      if ValidPrefix(read) {
        ValidPrefixShorter(Flatten(pieces), pending);
      }
      ValidConcat(Flatten(pieces), pending);
    }
  }

  lemma Emitted(read: seq<Byte>, pieces: seq<seq<Byte>>, pending: seq<Byte>, cut: nat)
    requires Flatten(pieces) + pending == read && cut <= |pending|
    ensures Flatten(pieces + [pending[..cut]]) + pending[cut..] == read
    ensures AllValid(pieces) && Valid(pending[..cut]) ==> AllValid(pieces + [pending[..cut]])
  {
    FlattenSnoc(pieces, pending[..cut]);
    assert pending == pending[..cut] + pending[cut..];
    assert Flatten(pieces) + pending[..cut] + pending[cut..] == Flatten(pieces) + (pending[..cut] + pending[cut..]);
  }

  /** Copies the stream to its pieces. used counts the reads taken, left is what was held
      back and never emitted. */
  method PumpLogStream(input: seq<Read>)
    returns (pieces: seq<seq<Byte>>, left: seq<Byte>, outcome: Outcome, used: nat)
    requires forall k :: 0 <= k < |input| ==> |input[k].data| <= LOG_READ_SIZE
    ensures used <= |input|
    ensures outcome.Running? ==> used == |input| && Bounded(left)
    ensures !outcome.Running? ==> used > 0
    ensures forall k :: 0 <= k < used - 1 ==> !input[k].cancelled && input[k].error.None?
    ensures match outcome
            case Running => used > 0 ==> !input[used - 1].cancelled && input[used - 1].error.None?
            case Cancelled => input[used - 1].cancelled
            case Ended => !input[used - 1].cancelled && input[used - 1].error.Eof?
            case Failed(message) => !input[used - 1].cancelled && input[used - 1].error == Broken(message)
    ensures var read := Bytes(input, if outcome.Cancelled? then used - 1 else used);
            && Flatten(pieces) + left == read
            && (outcome.Ended? || outcome.Failed? ==> left == [])
            && (outcome.Running? || outcome.Cancelled? ==> ValidPrefix(read) ==> AllValid(pieces))
            && (Valid(read) ==> AllValid(pieces))
    ensures forall k :: 0 <= k < |pieces| ==>
      GoodPiece(pieces[k]) || (k == |pieces| - 1 && (outcome.Ended? || outcome.Failed?))
  {
    hide Valid, ValidPrefix, AllValid, Flatten, GoodPiece, Bounded;
    StartsFaithful();
    pieces, left, used := [], [], 0;
    while used < |input|
      invariant used <= |input|
      invariant Faithful(Bytes(input, used), pieces, left) && Bounded(left)
      invariant forall k :: 0 <= k < |pieces| ==> GoodPiece(pieces[k])
      invariant forall k :: 0 <= k < used ==> !input[k].cancelled && input[k].error.None?
    {
      var r := input[used];
      used := used + 1;
      if r.cancelled {
        ValidCase(Bytes(input, used - 1), pieces);
        return pieces, left, Cancelled, used;
      }
      if |r.data| > 0 {
        pieces, left := Accept(Bytes(input, used - 1), pieces, left, r.data);
      } else {
        assert Bytes(input, used) == Bytes(input, used - 1);
      }
      if !r.error.None? {
        ValidCase(Bytes(input, used), pieces);
        PendingValid(Bytes(input, used), pieces, left);
        if |left| > 0 {
          Emitted(Bytes(input, used), pieces, left, |left|);
          assert left[..|left|] == left;
          pieces := pieces + [left];
          left := [];
        }
        outcome := if r.error.Eof? then Ended else Failed(r.error.message);
        return;
      }
    }
    ValidCase(Bytes(input, used), pieces);
    outcome := Running;
  }

  lemma StartsFaithful()
    ensures Faithful([], [], []) && Bounded([])
  {
  }

  lemma ValidCase(read: seq<Byte>, pieces: seq<seq<Byte>>)
    requires ValidPrefix(read) ==> AllValid(pieces)
    ensures Valid(read) ==> AllValid(pieces)
  {
    if Valid(read) {
      ValidIsPrefix(read);
    }
  }
}
