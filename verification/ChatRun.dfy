/**
 One chat run: the model and tool loop of internal/ai/agent.go, and the history it
 starts from (internal/business/ai.go).
 */
module ChatRun {
  import opened Text
  import opened History
  import Utf16
  import StreamGuard

  const MAX_ITERATIONS := 8

  // ---------------------------------------------------------------- the history of earlier turns

  datatype Turn = UserTurn(text: string) | AssistantTurn(calls: seq<ReplayedCall>, text: string)

  function TurnMessages(native: bool, t: Turn, marshal: Marshal): seq<Message> {
    match t
    case UserTurn(text) => [Message(User, text, [], "", "")]
    case AssistantTurn(calls, text) =>
      var done := FinishedCalls(calls);
      (if native then NativeReplay(done) else Written(done, marshal))
      + if text != "" then [Message(Assistant, text, [], "", "")] else []
  }

  function HistoryOf(native: bool, system: string, turns: seq<Turn>, marshal: Marshal): seq<Message> {
    if turns == [] then [Message(System, system, [], "", "")]
    else HistoryOf(native, system, turns[..|turns| - 1], marshal) + TurnMessages(native, turns[|turns| - 1], marshal)
  }

  method BuildHistory(native: bool, system: string, turns: seq<Turn>, marshal: Marshal) returns (msgs: seq<Message>)
    ensures msgs == HistoryOf(native, system, turns, marshal)
    ensures msgs != [] && msgs[0] == Message(System, system, [], "", "")
  {
    hide FinishedCalls, NativeReplay, Written;
    msgs := [Message(System, system, [], "", "")];
    for k := 0 to |turns|
      invariant msgs == HistoryOf(native, system, turns[..k], marshal)
      invariant msgs != [] && msgs[0] == Message(System, system, [], "", "")
    {
      assert turns[..k + 1][..k] == turns[..k];
      match turns[k] {
        case UserTurn(text) =>
          msgs := msgs + [Message(User, text, [], "", "")];
        case AssistantTurn(calls, text) =>
          var out := ReplayToolCalls(native, calls, marshal);
          if text != "" {
            out := out + [Message(Assistant, text, [], "", "")];
          } else {
            assert out + [] == out;
          }
          msgs := msgs + out;
      }
    }
    assert turns[..|turns|] == turns;
  }

  /** A user turn that reads as a prompt-mode tool result. */
  predicate Forged(t: Turn) {
    t.UserTurn? && HasPrefix(t.text, RESULT_PREFIX)
  }

  /** An assistant turn whose text reads as a call: a native reply may say one beside its real calls. */
  ghost predicate ReadsAsCall(t: Turn, marshal: Marshal) {
    t.AssistantTurn? && t.text != "" && exists name, args :: name != "" && t.text == marshal(name, args)
  }

  /** The user turn `b` reads as the result of the call the text of `a` reads as. */
  ghost predicate AnsweredBy(a: Turn, b: Turn, marshal: Marshal) {
    && a.AssistantTurn? && a.text != "" && b.UserTurn?
    && exists name, args :: a.text == marshal(name, args) && HasPrefix(b.text, PromptResultHead(name))
  }

  /** The turn leaves messages in the history: a stopped one may leave none. */
  predicate Speaks(t: Turn) {
    t.UserTurn? || FinishedCalls(t.calls) != [] || t.text != ""
  }

  function Speaking(turns: seq<Turn>): seq<Turn> {
    if turns == [] then [] else (if Speaks(turns[0]) then [turns[0]] else []) + Speaking(turns[1..])
  }

  /** Turn `i` answers the turn before if it reads as a result, and is answered by the next if it reads as a call. */
  ghost predicate MatchedAt(turns: seq<Turn>, i: nat, marshal: Marshal)
    requires i < |turns|
  {
    && (Forged(turns[i]) ==> i > 0 && AnsweredBy(turns[i - 1], turns[i], marshal))
    && (ReadsAsCall(turns[i], marshal) ==> i + 1 < |turns| && AnsweredBy(turns[i], turns[i + 1], marshal))
  }

  ghost predicate Matched(turns: seq<Turn>, marshal: Marshal) {
    forall i :: 0 <= i < |turns| ==> MatchedAt(turns, i, marshal)
  }

  lemma MatchedHead(turns: seq<Turn>, marshal: Marshal)
    requires turns != []
    ensures Matched(turns, marshal) <==>
            if |turns| > 1 && AnsweredBy(turns[0], turns[1], marshal) then Matched(turns[2..], marshal)
            else !Forged(turns[0]) && !ReadsAsCall(turns[0], marshal) && Matched(turns[1..], marshal)
  {
    hide HasPrefix, PromptResultHead;
    if |turns| > 1 && AnsweredBy(turns[0], turns[1], marshal) {
      AnswerIsForged(turns[0], turns[1], marshal);
      MatchedShift(turns, 2, marshal);
    } else {
      MatchedShift(turns, 1, marshal);
      assert MatchedAt(turns, 0, marshal) <==> !Forged(turns[0]) && !ReadsAsCall(turns[0], marshal);
    }
  }

  lemma AnswerIsForged(a: Turn, b: Turn, marshal: Marshal)
    requires AnsweredBy(a, b, marshal)
    ensures Forged(b) && !Forged(a) && !ReadsAsCall(b, marshal)
  {
  }

  /** Cut where no turn answers the one before, a history is matched if its turns are. */
  lemma MatchedShift(turns: seq<Turn>, n: nat, marshal: Marshal)
    requires 0 < n <= |turns| && (n < |turns| ==> !AnsweredBy(turns[n - 1], turns[n], marshal))
    ensures Matched(turns, marshal) <==> Matched(turns[n..], marshal) && forall i :: 0 <= i < n ==> MatchedAt(turns, i, marshal)
  {
    hide MatchedAt;
    forall j | n <= j < |turns| ensures MatchedAt(turns, j, marshal) <==> MatchedAt(turns[n..], j - n, marshal) {
      ShiftAt(turns, n, j, marshal);
    }
    if Matched(turns[n..], marshal) && forall i :: 0 <= i < n ==> MatchedAt(turns, i, marshal) {
      forall j | n <= j < |turns| ensures MatchedAt(turns, j, marshal) {
        assert MatchedAt(turns[n..], j - n, marshal);
      }
    }
    if Matched(turns, marshal) {
      forall i | 0 <= i < |turns| - n ensures MatchedAt(turns[n..], i, marshal) {
        assert MatchedAt(turns, n + i, marshal);
        ShiftAt(turns, n, n + i, marshal);
      }
    }
  }

  lemma ShiftAt(turns: seq<Turn>, n: nat, j: nat, marshal: Marshal)
    requires 0 < n <= j < |turns| && !AnsweredBy(turns[n - 1], turns[n], marshal)
    ensures MatchedAt(turns, j, marshal) <==> MatchedAt(turns[n..], j - n, marshal)
  {
    hide AnsweredBy, Forged, ReadsAsCall;
  }

  // ---- the messages of matched turns ----

  function MessagesOf(native: bool, turns: seq<Turn>, marshal: Marshal): seq<Message> {
    if turns == [] then [] else TurnMessages(native, turns[0], marshal) + MessagesOf(native, turns[1..], marshal)
  }

  lemma {:induction false} MessagesSnoc(native: bool, turns: seq<Turn>, t: Turn, marshal: Marshal)
    ensures MessagesOf(native, turns + [t], marshal) == MessagesOf(native, turns, marshal) + TurnMessages(native, t, marshal)
    decreases |turns|
  {
    hide TurnMessages;
    if turns == [] {
      assert [t][1..] == [] && turns + [t] == [t];
    } else {
      assert (turns + [t])[1..] == turns[1..] + [t];
      MessagesSnoc(native, turns[1..], t, marshal);
    }
  }

  lemma {:induction false} HistoryIs(native: bool, system: string, turns: seq<Turn>, marshal: Marshal)
    ensures HistoryOf(native, system, turns, marshal) == [Message(System, system, [], "", "")] + MessagesOf(native, turns, marshal)
  {
    hide TurnMessages;
    if turns != [] {
      var n := |turns| - 1;
      HistoryIs(native, system, turns[..n], marshal);
      MessagesSnoc(native, turns[..n], turns[n], marshal);
      assert turns[..n] + [turns[n]] == turns;
    }
  }

  lemma {:induction false} SpeakingSays(native: bool, turns: seq<Turn>, marshal: Marshal)
    ensures MessagesOf(native, Speaking(turns), marshal) == MessagesOf(native, turns, marshal)
    ensures forall i :: 0 <= i < |Speaking(turns)| ==> Speaks(Speaking(turns)[i])
  {
    hide TurnMessages, Speaks;
    if turns != [] {
      SpeakingSays(native, turns[1..], marshal);
      if Speaks(turns[0]) {
        assert Speaking(turns)[1..] == Speaking(turns[1..]);
      } else {
        SilentTurn(native, turns[0], marshal);
        assert [] + Speaking(turns[1..]) == Speaking(turns[1..]);
        assert [] + MessagesOf(native, turns[1..], marshal) == MessagesOf(native, turns[1..], marshal);
      }
    }
  }

  lemma SilentTurn(native: bool, t: Turn, marshal: Marshal)
    requires !Speaks(t)
    ensures TurnMessages(native, t, marshal) == []
  {
  }

  /** What the messages of a history start with. */
  lemma FirstMessage(native: bool, turns: seq<Turn>, marshal: Marshal)
    requires forall i :: 0 <= i < |turns| ==> Speaks(turns[i])
    ensures MessagesOf(native, turns, marshal) != [] <==> turns != []
    ensures turns != [] ==> (IsResult(MessagesOf(native, turns, marshal)[0]) <==> Forged(turns[0]))
    ensures turns != [] && turns[0].UserTurn? ==>
            MessagesOf(native, turns, marshal)[0] == Message(User, turns[0].text, [], "", "")
            && MessagesOf(native, turns, marshal)[1..] == MessagesOf(native, turns[1..], marshal)
  {
    hide HasPrefix, TurnMessages, MessagesOf;
    MessagesFirst(native, turns, marshal);
    if turns != [] {
      TurnStartsWith(native, turns[0], marshal);
    }
  }

  lemma MessagesFirst(native: bool, turns: seq<Turn>, marshal: Marshal)
    ensures MessagesOf(native, turns, marshal) ==
            if turns == [] then [] else TurnMessages(native, turns[0], marshal) + MessagesOf(native, turns[1..], marshal)
  {
    hide TurnMessages;
  }

  lemma TurnStartsWith(native: bool, t: Turn, marshal: Marshal)
    requires Speaks(t)
    ensures var m := TurnMessages(native, t, marshal);
            m != [] && (IsResult(m[0]) <==> Forged(t)) && (t.UserTurn? ==> m == [Message(User, t.text, [], "", "")])
  {
    hide HasPrefix, FinishedCalls, NativeReplay, Written;
    if t.AssistantTurn? {
      ReplayHead(native, FinishedCalls(t.calls), marshal);
    }
  }

  lemma {:induction false} ReplayHead(native: bool, done: seq<ReplayedCall>, marshal: Marshal)
    ensures var m := if native then NativeReplay(done) else Written(done, marshal);
            (m == [] <==> done == []) && (m != [] ==> m[0].role == Assistant)
  {
    hide ToolResultMessage, Results, NativeCalls;
    if !native && done != [] {
      ReplayHead(native, done[..|done| - 1], marshal);
    }
  }

  /** The first turn's own share of the pairing. */
  lemma PairedTurn(native: bool, t: Turn, rest: seq<Message>, marshal: Marshal)
    requires Speaks(t)
    ensures Paired(TurnMessages(native, t, marshal) + rest, marshal) <==>
            if t.text != "" && rest != [] && IsResult(rest[0])
            then t.AssistantTurn? && WrittenCall(Message(Assistant, t.text, [], "", ""), rest[0], marshal) && Paired(rest[1..], marshal)
            else !Forged(t) && !ReadsAsCall(t, marshal) && Paired(rest, marshal)
  {
    hide Paired, NativeReplay, Written, FinishedCalls, HasPrefix;
    StartsPlainIff(rest, marshal);
    if t.UserTurn? {
      UserThen(t.text, rest, marshal);
    } else {
      var done, said := FinishedCalls(t.calls), Message(Assistant, t.text, [], "", "");
      var replay, x := if native then NativeReplay(done) else Written(done, marshal), if t.text != "" then [said] else [];
      assert TurnMessages(native, t, marshal) + rest == replay + (x + rest);
      if native {
        NativeReplayThen(done, x + rest, marshal);
      } else {
        WrittenReplayThen(done, x + rest, marshal);
      }
      SingleThen(said, rest, marshal);
      assert [] + rest == rest;
    }
  }

  lemma UserThen(text: string, rest: seq<Message>, marshal: Marshal)
    ensures Paired([Message(User, text, [], "", "")] + rest, marshal) <==>
            !Forged(UserTurn(text)) && (rest == [] || !IsResult(rest[0])) && Paired(rest, marshal)
  {
    var m := Message(User, text, [], "", "");
    if !IsResult(m) {
      SingleThen(m, rest, marshal);
      StartsPlainIff(rest, marshal);
    }
  }

  lemma StartsPlainIff(rest: seq<Message>, marshal: Marshal)
    ensures Paired(rest, marshal) && rest != [] ==> !IsResult(rest[0])
  {
  }

  lemma {:induction false} TurnsPairedIff(native: bool, turns: seq<Turn>, marshal: Marshal)
    requires forall i :: 0 <= i < |turns| ==> Speaks(turns[i])
    ensures Paired(MessagesOf(native, turns, marshal), marshal) <==> Matched(turns, marshal)
    decreases |turns|
  {
    hide Paired, Matched, Speaks, HasPrefix, TurnMessages;
    if turns == [] {
      NothingMatched(marshal);
    } else {
      var rest := MessagesOf(native, turns[1..], marshal);
      FirstMessage(native, turns[1..], marshal);
      PairedTurn(native, turns[0], rest, marshal);
      MatchedHead(turns, marshal);
      TurnsPairedIff(native, turns[1..], marshal);
      StartsPlainIff(rest, marshal);
      if |turns| > 1 && turns[1].UserTurn? {
        TurnsPairedIff(native, turns[2..], marshal);
        assert turns[1..][1..] == turns[2..];
        AnswerIsWritten(turns[0], turns[1], marshal);
      }
    }
  }

  lemma AnswerIsWritten(a: Turn, b: Turn, marshal: Marshal)
    requires b.UserTurn?
    ensures AnsweredBy(a, b, marshal) <==>
            (a.AssistantTurn? && a.text != "" &&
             WrittenCall(Message(Assistant, a.text, [], "", ""), Message(User, b.text, [], "", ""), marshal))
    ensures AnsweredBy(a, b, marshal) ==> Forged(b)
  {
  }

  lemma NothingMatched(marshal: Marshal)
    ensures Paired([], marshal) && Matched([], marshal)
  {
  }

  /**
   * The history sent to the model pairs every call with its results, and holds no
   * other result, exactly when its texts are matched.
   */
  lemma HistoryPairedIff(native: bool, system: string, turns: seq<Turn>, marshal: Marshal)
    ensures Paired(HistoryOf(native, system, turns, marshal), marshal) <==> Matched(Speaking(turns), marshal)
  {
    hide Paired, Matched;
    var first, said := Message(System, system, [], "", ""), Speaking(turns);
    HistoryIs(native, system, turns, marshal);
    SpeakingSays(native, turns, marshal);
    TurnsPairedIff(native, said, marshal);
    SingleThen(first, MessagesOf(native, said, marshal), marshal);
    StartsPlainIff(MessagesOf(native, said, marshal), marshal);
  }

  /** The least such history: a user who writes what reads as the result of a tool x. */
  lemma ForgedResultUnpaired(native: bool, system: string, marshal: Marshal)
    ensures var turns := [UserTurn(PromptResultHead("x"))];
      !Matched(Speaking(turns), marshal) && !Paired(HistoryOf(native, system, turns, marshal), marshal)
  {
    hide Paired;
    var t := UserTurn(PromptResultHead("x"));
    assert PromptResultHead("x") == RESULT_PREFIX + "x" + "):\n" && Forged(t);
    assert Speaking([t]) == [t] && !MatchedAt([t], 0, marshal);
    HistoryPairedIff(native, system, [t], marshal);
  }

  // ---------------------------------------------------------------- the run

  /** What the model did in one iteration. cancelled: the context was already over;
      failed: the stream broke after these chunks. */
  datatype Reply = Reply(cancelled: bool, chunks: seq<string>, failed: bool, toolCalls: seq<ToolCall>)

  datatype Outcome = Answered | ToolLimit | Cancelled | StreamFailed

  function Concat(chunks: seq<string>): string {
    if chunks == [] then "" else Concat(chunks[..|chunks| - 1]) + chunks[|chunks| - 1]
  }

  /** The calls a reply's text spells, as parseTextToolCalls reads them: names and
      arguments, no ids. */
  datatype TextCall = TextCall(name: string, args: string)
  type Parse = string -> seq<TextCall>

  /** The calls of a complete reply: the native field, or else those its text spells. */
  function Calls(r: Reply, parse: Parse): (calls: seq<ToolCall>)
    ensures r.toolCalls == [] ==> forall i :: 0 <= i < |calls| ==> calls[i].id == ""
  {
    if r.toolCalls != [] then r.toolCalls
    else
      var spelled := parse(Concat(r.chunks));
      seq(|spelled|, i requires 0 <= i < |spelled| => ToolCall("", spelled[i].name, spelled[i].args, 0))
  }

  predicate IsTextCall(r: Reply, parse: Parse) {
    r.toolCalls == [] && parse(Concat(r.chunks)) != []
  }

  /** What a completed iteration leaves to read: nothing of a call written as text,
      otherwise everything the model said. */
  function Kept(r: Reply, parse: Parse): string {
    if IsTextCall(r, parse) then "" else TrimLeft(Concat(r.chunks))
  }

  /** The non-empty texts, separated by blank lines. */
  function Joined(texts: seq<string>): string {
    if texts == [] then ""
    else
      var before, t := Joined(texts[..|texts| - 1]), texts[|texts| - 1];
      if t == "" then before else if before == "" then t else before + "\n\n" + t
  }

  lemma JoinedSnoc(texts: seq<string>, t: string)
    ensures Joined(texts + [t]) == Joined(texts) + StreamGuard.Shown(Joined(texts) != "", t)
  {
    assert (texts + [t])[..|texts|] == texts;
    assert "" + t == t;
    assert Joined(texts) + "\n\n" + t == Joined(texts) + ("\n\n" + t);
  }

  /** The assistant's message: a call written as text is recorded as proper calls. */
  function AssistantMessage(r: Reply, parse: Parse): Message {
    Message(Assistant, if IsTextCall(r, parse) then "" else Concat(r.chunks), Calls(r, parse), "", "")
  }

  /** The id a call's result is filed under. */
  function CallId(r: Reply, c: ToolCall, iter: nat, i: nat): string {
    if r.toolCalls == [] then "text-" + Decimal(iter) + "-" + Decimal(i)
    else if c.id != "" then c.id
    else c.name + "-" + Decimal(iter) + "-" + Decimal(c.index)
  }

  function ResultMessages(native: bool, r: Reply, parse: Parse, iter: nat,
                          run: (nat, nat) -> string): (m: seq<Message>)
    ensures |m| == |Calls(r, parse)|
  {
    var calls := Calls(r, parse);
    seq(|calls|, i requires 0 <= i < |calls| =>
      ToolResultMessage(native, CallId(r, calls[i], iter, i), calls[i].name, run(iter, i)))
  }

  /** The messages one iteration adds. */
  function Exchange(native: bool, r: Reply, parse: Parse, iter: nat, run: (nat, nat) -> string): seq<Message> {
    [AssistantMessage(r, parse)] + ResultMessages(native, r, parse, iter, run)
  }

  /** The messages after n completed iterations. */
  function Transcript(history: seq<Message>, native: bool, model: nat -> Reply, parse: Parse,
                      run: (nat, nat) -> string, n: nat): seq<Message>
  {
    if n == 0 then history
    else
      Transcript(history, native, model, parse, run, n - 1) + Exchange(native, model(n - 1), parse, n - 1, run)
  }

  function Texts(model: nat -> Reply, parse: Parse, n: nat): seq<string> {
    seq(n, i requires 0 <= i < n => Kept(model(i), parse))
  }

  /** Call text is read as a call, so that a run never takes it for its answer. */
  ghost predicate ReadsCalls(parse: Parse, marshal: Marshal) {
    forall name, args :: name != "" ==> parse(marshal(name, args)) != []
  }

  lemma ExchangePaired(native: bool, r: Reply, parse: Parse, iter: nat,
                       run: (nat, nat) -> string, marshal: Marshal)
    requires ReadsCalls(parse, marshal)
    ensures Paired(Exchange(native, r, parse, iter, run), marshal)
    ensures !IsResult(Exchange(native, r, parse, iter, run)[0])
  {
    hide Paired, Answers, CallId, ToolResultMessage, IsTextCall, Calls, CallText;
    var calls, m := Calls(r, parse), Exchange(native, r, parse, iter, run);
    forall i | 0 <= i < |calls|
      ensures Answers(m[1 + i], calls[i])
    {
      ResultAnswers(native, r, calls[i], iter, i, run(iter, i));
      assert m[1 + i] == ResultMessages(native, r, parse, iter, run)[i];
    }
    FinalIsNoCall(r, parse, marshal);
    PairedExchange(m, marshal);
  }

  lemma FinalIsNoCall(r: Reply, parse: Parse, marshal: Marshal)
    requires ReadsCalls(parse, marshal)
    ensures Calls(r, parse) == [] ==> !CallText(AssistantMessage(r, parse), marshal)
  {
  }

  lemma PairedExchange(m: seq<Message>, marshal: Marshal)
    requires m != [] && !IsResult(m[0]) && |m| == 1 + |m[0].toolCalls|
    requires m[0].toolCalls == [] ==> !CallText(m[0], marshal)
    requires forall i :: 0 <= i < |m[0].toolCalls| ==> Answers(m[1 + i], m[0].toolCalls[i])
    ensures Paired(m, marshal)
  {
    hide IsResult, Answers, CallText, WrittenCall;
    assert m[|m|..] == [];
  }

  /**
   * Whatever the model says and however many iterations it takes, the messages of a
   * run pair each call with exactly its results, in native and in prompt mode, if and
   * only if the history it started from did.
   */
  lemma {:induction false} TranscriptPairedIff(history: seq<Message>, native: bool, model: nat -> Reply,
                                               parse: Parse, run: (nat, nat) -> string, n: nat, marshal: Marshal)
    requires ReadsCalls(parse, marshal)
    ensures Paired(Transcript(history, native, model, parse, run, n), marshal) <==> Paired(history, marshal)
  {
    hide Paired, Exchange, IsResult;
    if n > 0 {
      var before, e := Transcript(history, native, model, parse, run, n - 1), Exchange(native, model(n - 1), parse, n - 1, run);
      TranscriptPairedIff(history, native, model, parse, run, n - 1, marshal);
      ExchangePaired(native, model(n - 1), parse, n - 1, run, marshal);
      ExchangeIsSome(native, model(n - 1), parse, n - 1, run);
      assert (before + e)[..|before|] == before;
      if Paired(before, marshal) {
        PairedConcat(before, e, marshal);
      } else if Paired(before + e, marshal) {
        PairedCut(before + e, |before|, marshal);
      }
    }
  }

  lemma ExchangeIsSome(native: bool, r: Reply, parse: Parse, iter: nat, run: (nat, nat) -> string)
    ensures Exchange(native, r, parse, iter, run) != []
  {
  }

  /**
   * The turns of a conversation, replayed and run on: every message list the run
   * reaches is paired if and only if the turns are matched, and then every request it
   * sends is paired too, however much of the history was dropped to fit.
   */
  lemma ConversationPaired(native: bool, system: string, turns: seq<Turn>, model: nat -> Reply, parse: Parse,
                           run: (nat, nat) -> string, n: nat, budget: int, request: seq<Message>, marshal: Marshal)
    requires ReadsCalls(parse, marshal)
    ensures var msgs := Transcript(HistoryOf(native, system, turns, marshal), native, model, parse, run, n);
      && (Paired(msgs, marshal) <==> Matched(Speaking(turns), marshal))
      && (Matched(Speaking(turns), marshal) && BestFit(msgs, budget, request) ==> Paired(request, marshal))
  {
    hide Paired, Matched, BestFit, Transcript, HistoryOf;
    var history := HistoryOf(native, system, turns, marshal);
    HistoryPairedIff(native, system, turns, marshal);
    TranscriptPairedIff(history, native, model, parse, run, n, marshal);
    var msgs := Transcript(history, native, model, parse, run, n);
    if Matched(Speaking(turns), marshal) && BestFit(msgs, budget, request) {
      HistoryIs(native, system, turns, marshal);
      TranscriptStarts(history, native, model, parse, run, n);
      FitKeepsPairs(msgs, budget, request, marshal);
    }
  }

  lemma {:induction false} TranscriptStarts(history: seq<Message>, native: bool, model: nat -> Reply, parse: Parse,
                                            run: (nat, nat) -> string, n: nat)
    requires history != []
    ensures var msgs := Transcript(history, native, model, parse, run, n); msgs != [] && msgs[0] == history[0]
  {
    hide Exchange;
    if n > 0 {
      TranscriptStarts(history, native, model, parse, run, n - 1);
    }
  }

  lemma ResultAnswers(native: bool, r: Reply, c: ToolCall, iter: nat, i: nat, text: string)
    requires r.toolCalls == [] ==> c.id == ""
    ensures Answers(ToolResultMessage(native, CallId(r, c, iter, i), c.name, text), c)
  {
    hide IsResult, Decimal;
    PromptResultIs(c.name, text);
  }

  lemma PromptResultIs(name: string, text: string)
    ensures HasPrefix(ToolResultMessage(false, "", name, text).content, PromptResultHead(name))
  {
  }

  /** The chat client's callback: one Write per chunk. */
  method StreamReply(screen: StreamGuard.Screen, chunks: seq<string>) returns (g: StreamGuard.Guard)
    modifies screen
    ensures fresh(g) && g.screen == screen && g.Valid() && g.all == Concat(chunks)
    ensures g.separate == old(screen.emitted) && g.base == old(screen.units)
  {
    hide StreamGuard.Tracks;
    g := new StreamGuard.Guard(screen);
    for k := 0 to |chunks|
      invariant g.Valid() && g.all == Concat(chunks[..k])
      invariant fresh(g) && g.screen == screen
    {
      assert chunks[..k + 1][..k] == chunks[..k];
      g.Write(chunks[k]);
    }
    assert chunks[..|chunks|] == chunks;
  }

  /** Ends an iteration: a call written as text is taken back whole, separator
      included; anything else that was held back is shown after all. */
  method Settle(screen: StreamGuard.Screen, g: StreamGuard.Guard, textCall: bool, emittedBefore: bool)
    requires g.Valid() && g.screen == screen && g.separate == emittedBefore
    modifies screen, g
    ensures textCall ==> screen.units == g.base && screen.emitted == emittedBefore
    ensures !textCall ==> screen.units == g.base + Utf16.Encode(StreamGuard.Shown(g.separate, TrimLeft(old(g.all))))
    ensures !textCall ==> screen.emitted == (g.separate || TrimLeft(old(g.all)) != "")
  {
    if textCall {
      var n := g.Streamed();
      if n > 0 {
        screen.Retract(n, emittedBefore);
      } else {
        Utf16.NonEmpty(g.sent);
      }
    } else {
      g.Flush();
    }
  }

  lemma ShowStep(base: seq<nat>, texts: seq<string>, t: string)
    ensures base + Utf16.Encode(Joined(texts)) + Utf16.Encode(StreamGuard.Shown(Joined(texts) != "", t))
            == base + Utf16.Encode(Joined(texts + [t]))
    ensures Joined(texts + [t]) != "" <==> Joined(texts) != "" || t != ""
    ensures base + Utf16.Encode(Joined([])) == base
  {
    JoinedSnoc(texts, t);
    Utf16.EncodeConcat(Joined(texts), StreamGuard.Shown(Joined(texts) != "", t));
  }

  /** One request and its reply. */
  method RunIteration(screen: StreamGuard.Screen, msgs: seq<Message>, native: bool, budget: int, r: Reply,
                      parse: Parse, run: (nat, nat) -> string, iter: nat)
    returns (fitted: seq<Message>, more: bool, extended: seq<Message>)
    modifies screen
    ensures BestFit(msgs, budget, fitted)
    ensures r.failed ==> !more && extended == msgs
    ensures !r.failed ==> more == (Calls(r, parse) != []) && extended == msgs + Exchange(native, r, parse, iter, run)
    ensures var shown := if r.failed then TrimLeft(StreamGuard.Prose(Concat(r.chunks))) else Kept(r, parse);
            && screen.units == old(screen.units) + Utf16.Encode(StreamGuard.Shown(old(screen.emitted), shown))
            && screen.emitted == (old(screen.emitted) || shown != "")
  {
    hide BestFit, Calls, TrimLeft, StreamGuard.Prose, StreamGuard.Tracks, Exchange, Concat, IsTextCall, Utf16.Encode;
    fitted := FitHistory(msgs, budget);
    var emittedBefore := screen.emitted;
    var g := StreamReply(screen, r.chunks);
    extended, more := msgs, false;
    if r.failed {
      GuardShows(g);
      return;
    }
    Settle(screen, g, IsTextCall(r, parse), emittedBefore);
    Utf16.NonEmpty("");
    extended := msgs + Exchange(native, r, parse, iter, run);
    more := Calls(r, parse) != [];
  }

  /** The chat and tool loop. After n completed iterations the message list is their
      transcript, and what the turn has put on screen is the text they kept. */
  method RunChat(screen: StreamGuard.Screen, history: seq<Message>, native: bool, budget: int,
                 model: nat -> Reply, parse: Parse, run: (nat, nat) -> string)
    returns (outcome: Outcome, n: nat, msgs: seq<Message>, requests: seq<seq<Message>>)
    requires !screen.emitted
    modifies screen
    ensures n <= MAX_ITERATIONS
    ensures msgs == Transcript(history, native, model, parse, run, n)
    ensures forall i :: 0 <= i < n ==> !model(i).cancelled && !model(i).failed
    ensures forall i :: 0 <= i < n - 1 ==> Calls(model(i), parse) != []
    ensures match outcome
            case Answered => n > 0 && Calls(model(n - 1), parse) == []
            case ToolLimit => n == MAX_ITERATIONS && Calls(model(n - 1), parse) != []
            case Cancelled => n < MAX_ITERATIONS && model(n).cancelled
            case StreamFailed => n < MAX_ITERATIONS && !model(n).cancelled && model(n).failed
    ensures |requests| == n + (if outcome.StreamFailed? then 1 else 0)
    ensures forall i :: 0 <= i < |requests| ==>
      BestFit(Transcript(history, native, model, parse, run, i), budget, requests[i])
    ensures !outcome.StreamFailed? ==>
      screen.units == old(screen.units) + Utf16.Encode(Joined(Texts(model, parse, n)))
    ensures outcome.StreamFailed? ==>
      screen.units == old(screen.units)
        + Utf16.Encode(Joined(Texts(model, parse, n) + [TrimLeft(StreamGuard.Prose(Concat(model(n).chunks)))]))
  {
    hide BestFit, Utf16.Encode, Joined, Calls, Kept, TrimLeft, StreamGuard.Prose, Exchange, Concat, Transcript, Texts,
         StreamGuard.Shown;
    ghost var base := screen.units;
    msgs, requests, n := history, [], 0;
    Start(base, history, native, model, parse, run);
    while n < MAX_ITERATIONS
      invariant n <= MAX_ITERATIONS
      invariant msgs == Transcript(history, native, model, parse, run, n)
      invariant forall i :: 0 <= i < n ==> !model(i).cancelled && !model(i).failed && Calls(model(i), parse) != []
      invariant |requests| == n
      invariant forall i :: 0 <= i < n ==>
        BestFit(Transcript(history, native, model, parse, run, i), budget, requests[i])
      invariant screen.units == base + Utf16.Encode(Joined(Texts(model, parse, n)))
      invariant screen.emitted == (Joined(Texts(model, parse, n)) != "")
    {
      var r := model(n);
      if r.cancelled {
        return Cancelled, n, msgs, requests;
      }
      var fitted, more, extended := RunIteration(screen, msgs, native, budget, r, parse, run, n);
      requests := requests + [fitted];
      if r.failed {
        ShowStep(base, Texts(model, parse, n), TrimLeft(StreamGuard.Prose(Concat(r.chunks))));
        return StreamFailed, n, msgs, requests;
      }
      Step(base, history, native, model, parse, run, n);
      msgs, n := extended, n + 1;
      if !more {
        return Answered, n, msgs, requests;
      }
    }
    outcome := ToolLimit;
  }

  lemma Start(base: seq<nat>, history: seq<Message>, native: bool, model: nat -> Reply, parse: Parse,
              run: (nat, nat) -> string)
    ensures Transcript(history, native, model, parse, run, 0) == history
    ensures Texts(model, parse, 0) == []
    ensures base + Utf16.Encode(Joined([])) == base && Joined([]) == ""
  {
  }

  lemma Step(base: seq<nat>, history: seq<Message>, native: bool, model: nat -> Reply, parse: Parse,
             run: (nat, nat) -> string, n: nat)
    ensures Transcript(history, native, model, parse, run, n + 1) ==
            Transcript(history, native, model, parse, run, n) + Exchange(native, model(n), parse, n, run)
    ensures var texts, t := Texts(model, parse, n), Kept(model(n), parse);
            && base + Utf16.Encode(Joined(texts)) + Utf16.Encode(StreamGuard.Shown(Joined(texts) != "", t))
               == base + Utf16.Encode(Joined(Texts(model, parse, n + 1)))
            && (Joined(Texts(model, parse, n + 1)) != "" <==> Joined(texts) != "" || t != "")
  {
    ShowStep(base, Texts(model, parse, n), Kept(model(n), parse));
    assert Texts(model, parse, n + 1) == Texts(model, parse, n) + [Kept(model(n), parse)];
  }

  lemma GuardShows(g: StreamGuard.Guard)
    requires g.Valid()
    ensures g.sent == StreamGuard.Shown(g.separate, TrimLeft(StreamGuard.Prose(g.all)))
    ensures g.screen.units == g.base + Utf16.Encode(g.sent)
  {
  }
}
