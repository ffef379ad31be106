/**
 The chat history: the messages past tool calls are replayed as (internal/ai/agent.go)
 and fitting the history to the model's window (internal/ai/context.go).
 */
module History {
  import opened Text

  datatype Role = System | User | Assistant | Tool

  /** A tool call; args is the JSON text of its arguments. */
  datatype ToolCall = ToolCall(id: string, name: string, args: string, index: nat)

  datatype Message = Message(role: Role, content: string, toolCalls: seq<ToolCall>, toolName: string, toolCallId: string)

  const RESULT_PREFIX := "TOOL RESULT ("

  /** How the JSON library renders a call as text; any rendering will do. */
  type Marshal = (string, string) -> string

  function PromptResultHead(name: string): string {
    RESULT_PREFIX + name + "):\n"
  }

  function ToolResultMessage(native: bool, id: string, name: string, content: string): (m: Message)
    ensures IsResult(m)
  {
    if native then Message(Tool, content, [], name, id)
    else
      var tail := content + "\n\nUsing this, continue: call another tool the same way, or give your final answer in plain text.";
      assert PromptResultHead(name) + tail == RESULT_PREFIX + (name + "):\n" + tail);
      Message(User, PromptResultHead(name) + tail, [], "", "")
  }

  /** The message carries a tool's result: the tool role, or the prompt-mode prefix. */
  predicate IsResult(m: Message) {
    m.role == Tool || (m.role == User && HasPrefix(m.content, RESULT_PREFIX))
  }

  predicate Answers(m: Message, c: ToolCall) {
    && IsResult(m)
    && (m.role == Tool ==> m.toolName == c.name && (c.id != "" ==> m.toolCallId == c.id))
    && (m.role == User ==> HasPrefix(m.content, PromptResultHead(c.name)))
  }

  /** An assistant message that wrote its one call as text, answered by r. */
  ghost predicate WrittenCall(a: Message, r: Message, marshal: Marshal) {
    && a.role == Assistant
    && r.role == User
    && exists name, args :: a.content == marshal(name, args) && HasPrefix(r.content, PromptResultHead(name))
  }

  /** An assistant message whose text is a call, as prompt mode writes them. */
  ghost predicate CallText(m: Message, marshal: Marshal) {
    m.role == Assistant && exists name, args :: name != "" && m.content == marshal(name, args)
  }

  /** How many messages the exchange at the head of a history takes. */
  function HeadLength(msgs: seq<Message>): (n: nat)
    requires msgs != []
    ensures n >= 1
  {
    if msgs[0].toolCalls != [] then 1 + |msgs[0].toolCalls|
    else if |msgs| > 1 && IsResult(msgs[1]) then 2 else 1
  }

  /** The first message is no result, and its calls, in the field or written, have theirs behind them. */
  ghost predicate HeadPaired(msgs: seq<Message>, marshal: Marshal)
    requires msgs != []
  {
    var calls := msgs[0].toolCalls;
    && !IsResult(msgs[0]) && HeadLength(msgs) <= |msgs|
    && if calls != [] then forall i :: 0 <= i < |calls| ==> Answers(msgs[1 + i], calls[i])
       else if HeadLength(msgs) == 2 then WrittenCall(msgs[0], msgs[1], marshal)
       else !CallText(msgs[0], marshal)
  }

  /**
   * Every call is followed by exactly its results, in order, whether it is in the
   * calls field or written as text, and nothing else is a result.
   */
  ghost predicate Paired(msgs: seq<Message>, marshal: Marshal)
    decreases |msgs|
  {
    msgs == [] || (HeadPaired(msgs, marshal) && Paired(msgs[HeadLength(msgs)..], marshal))
  }

  /** The head of a history does not look further than what is no result any more. */
  lemma HeadConcat(a: seq<Message>, b: seq<Message>, marshal: Marshal)
    requires a != [] && HeadLength(a) <= |a| && (b == [] || !IsResult(b[0]))
    ensures HeadLength(a + b) == HeadLength(a) && (HeadPaired(a + b, marshal) <==> HeadPaired(a, marshal))
  {
    hide IsResult, Answers, WrittenCall, CallText;
    assert forall i :: 0 <= i < |a| ==> (a + b)[i] == a[i];
    assert |a| == 1 && b != [] ==> (a + b)[1] == b[0];
  }

  lemma {:induction false} PairedConcat(a: seq<Message>, b: seq<Message>, marshal: Marshal)
    requires Paired(a, marshal) && Paired(b, marshal)
    ensures Paired(a + b, marshal)
    decreases |a|
  {
    hide HeadPaired, HeadLength;
    StartsPlain(b, marshal);
    if a == [] {
      assert a + b == b;
    } else {
      StartsPlain(a, marshal);
      HeadConcat(a, b, marshal);
      assert (a + b)[HeadLength(a)..] == a[HeadLength(a)..] + b;
      PairedConcat(a[HeadLength(a)..], b, marshal);
    }
  }

  /** One message without a calls field in front of others. */
  lemma SingleThen(m: Message, rest: seq<Message>, marshal: Marshal)
    requires m.toolCalls == [] && !IsResult(m)
    ensures Paired([m] + rest, marshal) <==>
            if rest != [] && IsResult(rest[0]) then WrittenCall(m, rest[0], marshal) && Paired(rest[1..], marshal)
            else !CallText(m, marshal) && Paired(rest, marshal)
  {
    hide IsResult, Answers, WrittenCall, CallText;
    var msgs := [m] + rest;
    assert msgs[1..] == rest && (rest != [] ==> msgs[1] == rest[0] && msgs[2..] == rest[1..]);
  }

  lemma StartsPlain(msgs: seq<Message>, marshal: Marshal)
    requires Paired(msgs, marshal)
    ensures msgs != [] ==> !IsResult(msgs[0]) && 1 <= HeadLength(msgs) <= |msgs|
  {
  }

  /** Behind its first message, the head of a paired history is results. */
  lemma HeadResults(msgs: seq<Message>, marshal: Marshal)
    requires Paired(msgs, marshal) && msgs != []
    ensures forall j :: 1 <= j < HeadLength(msgs) ==> j < |msgs| && IsResult(msgs[j])
  {
    hide IsResult, Answers, WrittenCall, CallText;
    forall m, c | Answers(m, c) ensures IsResult(m) {
      AnswerIsResult(m, c);
    }
    ResultsFollow(msgs, marshal);
  }

  lemma AnswerIsResult(m: Message, c: ToolCall)
    requires Answers(m, c)
    ensures IsResult(m)
  {
  }

  lemma ResultsFollow(msgs: seq<Message>, marshal: Marshal)
    requires Paired(msgs, marshal) && msgs != []
    ensures HeadLength(msgs) <= |msgs|
    ensures if msgs[0].toolCalls != [] then forall j :: 1 <= j < HeadLength(msgs) ==> Answers(msgs[j], msgs[0].toolCalls[j - 1])
            else HeadLength(msgs) == 2 ==> IsResult(msgs[1])
    ensures msgs[0].toolCalls == [] ==> HeadLength(msgs) <= 2
  {
    hide IsResult, Answers, WrittenCall, CallText;
    var calls := msgs[0].toolCalls;
    assert forall j :: 1 <= j < 1 + |calls| ==> msgs[j] == msgs[1 + (j - 1)];
  }

  /** A paired history may be cut in front of anything that is not a result: both parts are paired. */
  lemma {:induction false} PairedCut(msgs: seq<Message>, i: nat, marshal: Marshal)
    requires Paired(msgs, marshal) && i < |msgs| && !IsResult(msgs[i])
    ensures Paired(msgs[..i], marshal) && Paired(msgs[i..], marshal)
    decreases |msgs|
  {
    hide IsResult, HeadPaired, HeadLength;
    var n := HeadLength(msgs);
    StartsPlain(msgs, marshal);
    HeadResults(msgs, marshal);
    if i == 0 {
      assert msgs[0..] == msgs && msgs[..0] == [];
    } else {
      PairedCut(msgs[n..], i - n, marshal);
      assert msgs[n..][i - n..] == msgs[i..];
      assert msgs[..i][n..] == msgs[n..][..i - n];
      HeadOfPrefix(msgs, i, marshal);
    }
  }

  lemma HeadOfPrefix(msgs: seq<Message>, i: nat, marshal: Marshal)
    requires msgs != [] && HeadLength(msgs) <= i < |msgs| && !IsResult(msgs[i])
    ensures HeadLength(msgs[..i]) == HeadLength(msgs)
    ensures HeadPaired(msgs[..i], marshal) <==> HeadPaired(msgs, marshal)
  {
    hide IsResult, HeadPaired, HeadLength;
    assert msgs == msgs[..i] + msgs[i..];
    ShortHead(msgs, i);
    HeadConcat(msgs[..i], msgs[i..], marshal);
  }

  lemma ShortHead(msgs: seq<Message>, i: nat)
    requires msgs != [] && HeadLength(msgs) <= i < |msgs|
    ensures HeadLength(msgs[..i]) == HeadLength(msgs)
  {
    hide IsResult;
  }

  // ---------------------------------------------------------------- replaying a turn

  /** What the frontend hands back of a past call. */
  datatype ReplayedCall = ReplayedCall(id: string, name: string, args: string, status: string, result: string)

  const DECLINED_RESULT := "The user declined to run this action."

  predicate Finished(c: ReplayedCall) {
    c.status == "done" || c.status == "error" || c.status == "declined"
  }

  function ResultText(c: ReplayedCall): string {
    if c.status == "done" then c.result
    else if c.status == "error" then "error: " + c.result
    else DECLINED_RESULT
  }

  function FinishedCalls(calls: seq<ReplayedCall>): seq<ReplayedCall> {
    if calls == [] then []
    else FinishedCalls(calls[..|calls| - 1]) + if Finished(calls[|calls| - 1]) then [calls[|calls| - 1]] else []
  }

  function NativeCalls(done: seq<ReplayedCall>): (r: seq<ToolCall>)
    ensures |r| == |done|
  {
    seq(|done|, i requires 0 <= i < |done| => ToolCall(done[i].id, done[i].name, done[i].args, 0))
  }

  function Results(native: bool, done: seq<ReplayedCall>): (r: seq<Message>)
    ensures |r| == |done|
  {
    seq(|done|, i requires 0 <= i < |done| => ToolResultMessage(native, done[i].id, done[i].name, ResultText(done[i])))
  }

  function Written(done: seq<ReplayedCall>, marshal: Marshal): seq<Message> {
    if done == [] then []
    else
      var c := done[|done| - 1];
      Written(done[..|done| - 1], marshal)
      + [Message(Assistant, marshal(c.name, c.args), [], "", ""), ToolResultMessage(false, c.id, c.name, ResultText(c))]
  }

  /** One assistant message carrying every call, followed by the results in order. */
  function NativeReplay(done: seq<ReplayedCall>): seq<Message> {
    if done == [] then []
    else [Message(Assistant, "", NativeCalls(done), "", "")] + Results(true, done)
  }

  method ReplayToolCalls(native: bool, calls: seq<ReplayedCall>, marshal: Marshal) returns (out: seq<Message>)
    ensures native ==> out == NativeReplay(FinishedCalls(calls))
    ensures !native ==> out == Written(FinishedCalls(calls), marshal)
    ensures Paired(out, marshal)
  {
    hide Paired, NativeCalls, Results, Written, ToolResultMessage, ResultText, IsResult;
    out := [];
    var nativeCalls, results := [], [];
    ghost var done := [];
    assert NativeCalls(done) == [] && Results(true, done) == [] && Written(done, marshal) == [] by {
      EmptyReplay(marshal);
    }
    for k := 0 to |calls|
      invariant done == FinishedCalls(calls[..k])
      invariant native ==> out == []
      invariant native ==> nativeCalls == NativeCalls(done) && results == Results(true, done)
      invariant !native ==> out == Written(done, marshal) && nativeCalls == []
    {
      var c := calls[k];
      FinishedSnoc(calls[..k], c);
      assert calls[..k + 1] == calls[..k] + [c];
      if !Finished(c) {
        continue;
      }
      ReplaySnoc(done, c, marshal);
      done := done + [c];
      var content := ResultText(c);
      if native {
        nativeCalls := nativeCalls + [ToolCall(c.id, c.name, c.args, 0)];
        results := results + [ToolResultMessage(true, c.id, c.name, content)];
        continue;
      }
      out := out + [Message(Assistant, marshal(c.name, c.args), [], "", ""),
                    ToolResultMessage(false, c.id, c.name, content)];
    }
    assert calls[..|calls|] == calls;
    if native && nativeCalls != [] {
      out := out + [Message(Assistant, "", nativeCalls, "", "")] + results;
    }
    NativeReplayPaired(done, marshal);
    WrittenReplayPaired(done, marshal);
  }

  lemma EmptyReplay(marshal: Marshal)
    ensures NativeCalls([]) == [] && Results(true, []) == [] && Written([], marshal) == []
  {
  }

  lemma FinishedSnoc(calls: seq<ReplayedCall>, c: ReplayedCall)
    ensures FinishedCalls(calls + [c]) == FinishedCalls(calls) + if Finished(c) then [c] else []
  {
    assert (calls + [c])[..|calls|] == calls;
  }

  lemma ReplaySnoc(done: seq<ReplayedCall>, c: ReplayedCall, marshal: Marshal)
    ensures NativeCalls(done + [c]) == NativeCalls(done) + [ToolCall(c.id, c.name, c.args, 0)]
    ensures Results(true, done + [c]) == Results(true, done) + [ToolResultMessage(true, c.id, c.name, ResultText(c))]
    ensures Written(done + [c], marshal) == Written(done, marshal) +
      [Message(Assistant, marshal(c.name, c.args), [], "", ""), ToolResultMessage(false, c.id, c.name, ResultText(c))]
  {
    assert (done + [c])[..|done|] == done;
  }

  lemma NativeReplayPaired(done: seq<ReplayedCall>, marshal: Marshal)
    ensures Paired(NativeReplay(done), marshal)
  {
    hide NativeReplay, Paired;
    assert NativeReplay(done) + [] == NativeReplay(done);
    NothingPaired(marshal);
    NativeReplayThen(done, [], marshal);
  }

  lemma NothingPaired(marshal: Marshal)
    ensures Paired([], marshal)
  {
  }

  /** A native replay answers its own calls, whatever follows. */
  lemma NativeReplayThen(done: seq<ReplayedCall>, rest: seq<Message>, marshal: Marshal)
    ensures Paired(NativeReplay(done) + rest, marshal) <==> Paired(rest, marshal)
  {
    hide HeadPaired, Results, NativeCalls;
    var m := NativeReplay(done) + rest;
    if done == [] {
      assert m == rest;
    } else {
      NativeHead(done, m, rest, marshal);
      assert m[1 + |done|..] == rest;
    }
  }

  lemma NativeHead(done: seq<ReplayedCall>, m: seq<Message>, rest: seq<Message>, marshal: Marshal)
    requires done != [] && m == NativeReplay(done) + rest
    ensures HeadLength(m) == 1 + |done| && HeadPaired(m, marshal)
  {
    hide Results, NativeCalls, IsResult, CallText, WrittenCall, Answers;
    assert m[0] == Message(Assistant, "", NativeCalls(done), "", "") && !IsResult(m[0]) by {
      AssistantIsNoResult(m[0]);
    }
    forall i | 0 <= i < |done| ensures Answers(m[1 + i], NativeCalls(done)[i]) {
      NativeAnswers(done, i);
      assert m[1 + i] == Results(true, done)[i];
    }
  }

  lemma AssistantIsNoResult(m: Message)
    ensures m.role == Assistant ==> !IsResult(m)
  {
  }

  lemma NativeAnswers(done: seq<ReplayedCall>, i: nat)
    requires i < |done|
    ensures Answers(Results(true, done)[i], NativeCalls(done)[i])
  {
  }

  lemma WrittenReplayPaired(done: seq<ReplayedCall>, marshal: Marshal)
    ensures Paired(Written(done, marshal), marshal)
  {
    hide Written, Paired;
    assert Written(done, marshal) + [] == Written(done, marshal);
    NothingPaired(marshal);
    WrittenReplayThen(done, [], marshal);
  }

  /** A written replay answers its own calls, whatever follows. */
  lemma {:induction false} WrittenReplayThen(done: seq<ReplayedCall>, rest: seq<Message>, marshal: Marshal)
    ensures Paired(Written(done, marshal) + rest, marshal) <==> Paired(rest, marshal)
    decreases |done|
  {
    hide Paired, ToolResultMessage, ResultText;
    if done == [] {
      assert Written(done, marshal) + rest == rest;
    } else {
      var c, before := done[|done| - 1], done[..|done| - 1];
      var pair := [Message(Assistant, marshal(c.name, c.args), [], "", ""), ToolResultMessage(false, c.id, c.name, ResultText(c))];
      assert Written(done, marshal) + rest == Written(before, marshal) + (pair + rest);
      WrittenReplayThen(before, pair + rest, marshal);
      PairThen(c, rest, marshal);
    }
  }

  lemma PairThen(c: ReplayedCall, rest: seq<Message>, marshal: Marshal)
    ensures Paired([Message(Assistant, marshal(c.name, c.args), [], "", ""), ToolResultMessage(false, c.id, c.name, ResultText(c))] + rest,
                   marshal)
            <==> Paired(rest, marshal)
  {
    hide CallText, ResultText;
    var a, r := Message(Assistant, marshal(c.name, c.args), [], "", ""), ToolResultMessage(false, c.id, c.name, ResultText(c));
    assert WrittenCall(a, r, marshal);
    var m := [a, r] + rest;
    assert m[0] == a && m[1] == r && m[2..] == rest;
  }

  // ---------------------------------------------------------------- fitting the window

  const CHARS_PER_TOKEN := 3

  function CallSize(calls: seq<ToolCall>): nat {
    if calls == [] then 0 else CallSize(calls[..|calls| - 1]) + |calls[|calls| - 1].name| + |calls[|calls| - 1].args|
  }

  function EstimateTokens(m: Message): (n: nat)
    ensures n >= 4
  {
    (|m.content| + CallSize(m.toolCalls)) / CHARS_PER_TOKEN + 4
  }

  /** A token for three characters, and four for each message; a call weighs as much as its name and arguments would as text. */
  lemma EstimateReads(m: Message, c: ToolCall)
    ensures m.toolCalls == [] ==> EstimateTokens(m) == |m.content| / 3 + 4
    ensures EstimateTokens(m.(toolCalls := m.toolCalls + [c])) == EstimateTokens(m.(content := m.content + c.name + c.args))
  {
    assert (m.toolCalls + [c])[..|m.toolCalls|] == m.toolCalls;
  }

  function Tokens(msgs: seq<Message>): nat {
    if msgs == [] then 0 else EstimateTokens(msgs[0]) + Tokens(msgs[1..])
  }

  lemma {:induction false} TokensConcat(a: seq<Message>, b: seq<Message>)
    ensures Tokens(a + b) == Tokens(a) + Tokens(b)
  {
    if a == [] {
      assert a + b == b;
    } else {
      assert (a + b)[1..] == a[1..] + b;
      TokensConcat(a[1..], b);
    }
  }

  /** A turn starts here: a user message that is not a prompt-mode tool result. */
  predicate TurnStart(msgs: seq<Message>, i: int) {
    1 <= i < |msgs| && msgs[i].role == User && !HasPrefix(msgs[i].content, RESULT_PREFIX)
  }

  /** The history with everything between the system prompt and position cut dropped. */
  function From(msgs: seq<Message>, cut: int): seq<Message>
    requires 1 <= cut <= |msgs|
  {
    [msgs[0]] + msgs[cut..]
  }

  lemma TokensFrom(msgs: seq<Message>, a: int, b: int)
    requires 1 <= a <= b <= |msgs|
    ensures Tokens(From(msgs, a)) == Tokens(From(msgs, b)) + Tokens(msgs[a..b])
    ensures a < b ==> Tokens(From(msgs, b)) < Tokens(From(msgs, a))
  {
    TokensConcat([msgs[0]], msgs[a..]);
    TokensConcat([msgs[0]], msgs[b..]);
    TokensConcat(msgs[a..b], msgs[b..]);
    assert msgs[a..] == msgs[a..b] + msgs[b..];
  }

  /** cut is the least turn start from which the history fits or, when it fits from
      none, the newest turn start. */
  ghost predicate BestCut(msgs: seq<Message>, budget: int, cut: int) {
    && TurnStart(msgs, cut)
    && (forall i :: TurnStart(msgs, i) && i < cut ==> Tokens(From(msgs, i)) > budget)
    && (Tokens(From(msgs, cut)) <= budget || (forall i :: TurnStart(msgs, i) ==> i <= cut))
  }

  /** fitted is msgs when that fits or has no turn to drop, and the system prompt with
      the suffix from the best cut otherwise. */
  ghost predicate BestFit(msgs: seq<Message>, budget: int, fitted: seq<Message>) {
    if |msgs| <= 2 || Tokens(msgs) <= budget || (forall i :: !TurnStart(msgs, i)) then fitted == msgs
    else exists cut :: BestCut(msgs, budget, cut) && fitted == From(msgs, cut)
  }

  method SumTokens(msgs: seq<Message>) returns (total: nat)
    ensures total == Tokens(msgs)
  {
    total := 0;
    for k := 0 to |msgs|
      invariant total == Tokens(msgs[..k])
    {
      assert msgs[..k + 1] == msgs[..k] + [msgs[k]];
      TokensConcat(msgs[..k], [msgs[k]]);
      assert Tokens([msgs[k]]) == EstimateTokens(msgs[k]) + Tokens([msgs[k]][1..]);
      total := total + EstimateTokens(msgs[k]);
    }
    assert msgs[..|msgs|] == msgs;
  }

  ghost predicate Starts(msgs: seq<Message>, upTo: int, starts: seq<int>) {
    && (forall k :: 0 <= k < |starts| ==> TurnStart(msgs, starts[k]) && starts[k] < upTo)
    && (forall j, k :: 0 <= j < k < |starts| ==> starts[j] < starts[k])
    && (forall i :: TurnStart(msgs, i) && i < upTo ==> i in starts)
  }

  method TurnStarts(msgs: seq<Message>) returns (starts: seq<int>)
    requires msgs != []
    ensures Starts(msgs, |msgs|, starts)
  {
    starts := [];
    for i := 1 to |msgs|
      invariant Starts(msgs, i, starts)
    {
      ghost var before := starts;
      if msgs[i].role == User && !HasPrefix(msgs[i].content, RESULT_PREFIX) {
        starts := starts + [i];
        assert starts[|before|] == i;
        assert forall j :: j in before ==> j in starts;
      }
    }
  }

  lemma ConsecutiveStarts(msgs: seq<Message>, starts: seq<int>, k: nat)
    requires Starts(msgs, |msgs|, starts) && k < |starts|
    ensures TurnStart(msgs, starts[k])
    ensures forall i :: TurnStart(msgs, i) && i < starts[k] ==> k > 0 && i <= starts[k - 1]
    ensures forall i :: TurnStart(msgs, i) ==> i <= starts[|starts| - 1]
    ensures starts[k] <= starts[|starts| - 1] && (k > 0 ==> starts[k - 1] < starts[k])
  {
  }

  lemma FromOne(msgs: seq<Message>)
    requires msgs != []
    ensures From(msgs, 1) == msgs
    ensures forall i :: TurnStart(msgs, i) ==> 1 <= i < |msgs|
  {
  }

  /** Drops whole turns from the front; total is the true size of what is left at
      every step. */
  method DropTurns(msgs: seq<Message>, budget: int, size: int, starts: seq<int>) returns (cut: int)
    requires msgs != [] && size == Tokens(msgs) && size > budget
    requires Starts(msgs, |msgs|, starts) && starts != []
    ensures BestCut(msgs, budget, cut)
  {
    hide Tokens, Starts, TurnStart, From;
    FromOne(msgs);
    var last := starts[|starts| - 1];
    var total := size;
    cut := 1;
    var k := 0;
    ConsecutiveStarts(msgs, starts, |starts| - 1);
    while k < |starts|
      invariant 0 <= k < |starts|
      invariant cut == (if k == 0 then 1 else starts[k - 1])
      invariant 1 <= cut <= last && (k > 0 ==> TurnStart(msgs, cut))
      invariant total == Tokens(From(msgs, cut))
      invariant forall i :: TurnStart(msgs, i) && i < cut ==> Tokens(From(msgs, i)) > budget
      invariant k == 0 ==> total > budget
    {
      var s := starts[k];
      if total <= budget || s >= last {
        break;
      }
      ConsecutiveStarts(msgs, starts, k);
      TokensFrom(msgs, cut, s);
      var dropped := SumTokens(msgs[cut..s]);
      total := total - dropped;
      cut := s;
      k := k + 1;
    }
    ConsecutiveStarts(msgs, starts, k);
    // No boundary in front of the last one fits, so the best cut is the last.
    if total > budget && cut < last {
      TokensFrom(msgs, cut, last);
      var dropped := SumTokens(msgs[cut..last]);
      total := total - dropped;
      cut := last;
    }
  }

  /** The result is the best fit: the least cut whose suffix, with the first message, is within budget. */
  method FitHistory(msgs: seq<Message>, budget: int) returns (out: seq<Message>)
    ensures BestFit(msgs, budget, out)
  {
    if |msgs| <= 2 {
      return msgs;
    }
    var total := SumTokens(msgs);
    if total <= budget {
      return msgs;
    }
    var starts := TurnStarts(msgs);
    if |starts| == 0 {
      assert forall i :: TurnStart(msgs, i) ==> i in starts;
      return msgs;
    }
    var cut := DropTurns(msgs, budget, total, starts);
    out := From(msgs, cut);
  }

  /** The best fit is unique, so FitHistory computes one function of its input. */
  lemma BestFitUnique(msgs: seq<Message>, budget: int, f: seq<Message>, g: seq<Message>)
    requires BestFit(msgs, budget, f) && BestFit(msgs, budget, g)
    ensures f == g
  {
    if |msgs| > 2 && Tokens(msgs) > budget && exists i :: TurnStart(msgs, i) {
      var a :| BestCut(msgs, budget, a) && f == From(msgs, a);
      var b :| BestCut(msgs, budget, b) && g == From(msgs, b);
      assert a == b;
    }
  }

  /** Fitting an already fitted history changes nothing. */
  lemma FitIdempotent(msgs: seq<Message>, budget: int, fitted: seq<Message>, again: seq<Message>)
    requires BestFit(msgs, budget, fitted) && BestFit(fitted, budget, again)
    ensures again == fitted
  {
    if |fitted| > 2 && Tokens(fitted) > budget && fitted != msgs {
      var cut :| BestCut(msgs, budget, cut) && fitted == From(msgs, cut);
      forall i | TurnStart(fitted, i)
        ensures i == 1
      {
        assert fitted[i] == msgs[cut + i - 1];
        assert TurnStart(msgs, cut + i - 1);
      }
      assert fitted[1] == msgs[cut] && TurnStart(fitted, 1);
      assert From(fitted, 1) == fitted;
    } else if |fitted| > 2 && Tokens(fitted) > budget {
      assert fitted == msgs;
      BestFitUnique(msgs, budget, fitted, again);
    }
  }

  /** What is sent to the model never holds a result without its call. */
  lemma FitKeepsPairs(msgs: seq<Message>, budget: int, fitted: seq<Message>, marshal: Marshal)
    requires BestFit(msgs, budget, fitted) && Paired(msgs, marshal)
    requires msgs != [] ==> msgs[0].role == System && msgs[0].toolCalls == []
    ensures Paired(fitted, marshal)
    ensures msgs != [] ==> fitted != [] && fitted[0] == msgs[0]
  {
    if fitted != msgs {
      var cut :| BestCut(msgs, budget, cut) && fitted == From(msgs, cut);
      PairedCut(msgs, cut, marshal);
      assert [msgs[0]][1..] == [];
      assert Paired([msgs[0]], marshal);
      PairedConcat([msgs[0]], msgs[cut..], marshal);
    }
  }
}
