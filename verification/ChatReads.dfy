// internal/ai/agent.go:101-163,313-365: what can be read back from the messages of a
// run and of a replayed turn: every call, and every tool's result.

module ChatReads {
  import opened Text
  import opened History
  import opened ChatRun

  const TAIL := "\n\nUsing this, continue: call another tool the same way, or give your final answer in plain text."

  /** The message brings back `text` as the result of the call `name`: the tool's own role, or the user's with the text in between. */
  predicate Brings(m: Message, native: bool, id: string, name: string, text: string) {
    if native then m == Message(Tool, text, [], name, id)
    else m == Message(User, "TOOL RESULT (" + name + "):\n" + text + TAIL, [], "", "")
  }

  lemma ResultBrings(native: bool, id: string, name: string, text: string)
    ensures Brings(ToolResultMessage(native, id, name, text), native, id, name, text)
  {
    assert "TOOL RESULT (" + name + "):\n" + text + TAIL == PromptResultHead(name) + (text + TAIL);
  }

  /** What was said in front of a result can be told from the text alone: two results under one name differ as their texts do. */
  lemma TextIsReadBack(m: Message, native: bool, id: string, name: string, a: string, b: string)
    requires Brings(m, native, id, name, a) && Brings(m, native, id, name, b)
    ensures a == b
  {
    if !native {
      var head := "TOOL RESULT (" + name + "):\n";
      assert m.content[|head|..|m.content| - |TAIL|] == a;
      assert m.content[|head|..|m.content| - |TAIL|] == b;
    }
  }

  // ---- A run ----

  /** The name under which the `i`-th call of an iteration is answered. */
  predicate FiledUnder(id: string, r: Reply, c: ToolCall, iter: nat, i: nat) {
    && (r.toolCalls != [] && c.id != "" ==> id == c.id)
    && (r.toolCalls != [] && c.id == "" ==> id == c.name + "-" + Decimal(iter) + "-" + Decimal(c.index))
    && (r.toolCalls == [] ==> id == "text-" + Decimal(iter) + "-" + Decimal(i))
  }

  /**
   * The messages of an iteration: the reply with its calls, taken from the native field
   * or else from its text, which is then no prose, and behind it each call's result.
   */
  ghost predicate HoldsExchange(e: seq<Message>, native: bool, r: Reply, parse: Parse, iter: nat, run: (nat, nat) -> string) {
    var text, spelled := Concat(r.chunks), parse(Concat(r.chunks));
    && e != [] && e[0].role == Assistant && e[0].toolName == "" && e[0].toolCallId == ""
    && (r.toolCalls != [] ==> e[0].toolCalls == r.toolCalls && e[0].content == text)
    && (r.toolCalls == [] ==>
          && |e[0].toolCalls| == |spelled| && e[0].content == (if spelled == [] then text else "")
          && forall i :: 0 <= i < |spelled| ==> e[0].toolCalls[i] == ToolCall("", spelled[i].name, spelled[i].args, 0))
    && |e| == 1 + |e[0].toolCalls|
    && forall i :: 0 <= i < |e[0].toolCalls| ==> Answered(e[1 + i], native, r, e[0].toolCalls[i], iter, i, run)
  }

  /** The message brings back what running the call gave, filed under the call's name. */
  ghost predicate Answered(m: Message, native: bool, r: Reply, c: ToolCall, iter: nat, i: nat, run: (nat, nat) -> string) {
    exists id :: FiledUnder(id, r, c, iter, i) && Brings(m, native, id, c.name, run(iter, i))
  }

  lemma AssistantHolds(r: Reply, parse: Parse)
    ensures var m, text, spelled := AssistantMessage(r, parse), Concat(r.chunks), parse(Concat(r.chunks));
      && m.role == Assistant && m.toolName == "" && m.toolCallId == "" && m.toolCalls == Calls(r, parse)
      && (r.toolCalls != [] ==> m.toolCalls == r.toolCalls && m.content == text)
      && (r.toolCalls == [] ==>
            && |m.toolCalls| == |spelled| && m.content == (if spelled == [] then text else "")
            && forall i :: 0 <= i < |spelled| ==> m.toolCalls[i] == ToolCall("", spelled[i].name, spelled[i].args, 0))
  {
    hide Concat;
  }

  lemma ExchangeHolds(native: bool, r: Reply, parse: Parse, iter: nat, run: (nat, nat) -> string)
    ensures HoldsExchange(Exchange(native, r, parse, iter, run), native, r, parse, iter, run)
  {
    hide AssistantMessage, Answered, Calls, Concat, ToolResultMessage, CallId, Decimal;
    AssistantHolds(r, parse);
    var e, calls, results := Exchange(native, r, parse, iter, run), Calls(r, parse), ResultMessages(native, r, parse, iter, run);
    assert e[0] == AssistantMessage(r, parse) && forall i :: 0 <= i < |results| ==> e[1 + i] == results[i];
    forall i | 0 <= i < |calls| ensures Answered(results[i], native, r, calls[i], iter, i, run) {
      ResultAnswered(native, r, calls[i], iter, i, run);
    }
  }

  lemma ResultAnswered(native: bool, r: Reply, c: ToolCall, iter: nat, i: nat, run: (nat, nat) -> string)
    ensures Answered(ToolResultMessage(native, CallId(r, c, iter, i), c.name, run(iter, i)), native, r, c, iter, i, run)
  {
    hide Brings, FiledUnder, ToolResultMessage, CallId;
    FiledAs(r, c, iter, i);
    ResultBrings(native, CallId(r, c, iter, i), c.name, run(iter, i));
  }

  lemma FiledAs(r: Reply, c: ToolCall, iter: nat, i: nat)
    ensures FiledUnder(CallId(r, c, iter, i), r, c, iter, i)
  {
  }

  /** The messages from `at[k]` up to `at[k + 1]` are those of iteration `k`. */
  ghost predicate HoldsAt(msgs: seq<Message>, at: seq<nat>, k: nat, native: bool, model: nat -> Reply, parse: Parse, run: (nat, nat) -> string) {
    k + 1 < |at| && at[k] < at[k + 1] <= |msgs| && HoldsExchange(msgs[at[k]..at[k + 1]], native, model(k), parse, k, run)
  }

  lemma HoldsLater(msgs: seq<Message>, at: seq<nat>, k: nat, native: bool, model: nat -> Reply, parse: Parse, run: (nat, nat) -> string,
                   e: seq<Message>, end: nat)
    requires HoldsAt(msgs, at, k, native, model, parse, run)
    ensures HoldsAt(msgs + e, at + [end], k, native, model, parse, run)
  {
    hide HoldsExchange;
    assert (msgs + e)[at[k]..at[k + 1]] == msgs[at[k]..at[k + 1]];
  }

  /**
   * The messages after any number of iterations hold the history, then the exchange of
   * each iteration in turn: every result the tools gave is there to be read.
   */
  lemma {:induction false} RunHolds(history: seq<Message>, native: bool, model: nat -> Reply, parse: Parse,
                                    run: (nat, nat) -> string, n: nat) returns (at: seq<nat>)
    ensures var msgs := Transcript(history, native, model, parse, run, n);
      && |at| == n + 1 && at[0] == |history| && at[n] == |msgs| && history <= msgs
      && forall k :: 0 <= k < n ==> HoldsAt(msgs, at, k, native, model, parse, run)
  {
    hide HoldsExchange, Exchange;
    if n == 0 {
      at := [|history|];
    } else {
      var before, e := Transcript(history, native, model, parse, run, n - 1), Exchange(native, model(n - 1), parse, n - 1, run);
      var msgs := before + e;
      var was := RunHolds(history, native, model, parse, run, n - 1);
      ExchangeHolds(native, model(n - 1), parse, n - 1, run);
      ExchangeIsSome(native, model(n - 1), parse, n - 1, run);
      at := was + [|msgs|];
      forall k | 0 <= k < n ensures HoldsAt(msgs, at, k, native, model, parse, run) {
        if k < n - 1 {
          HoldsLater(before, was, k, native, model, parse, run, e, |msgs|);
        } else {
          assert msgs[|before|..|msgs|] == e;
        }
      }
    }
  }

  // ---- A replayed turn ----

  predicate Ended(c: ReplayedCall) { c.status in {"done", "error", "declined"} }

  /** What the model is told of a call that ended. */
  predicate Tells(text: string, c: ReplayedCall) {
    && (c.status == "done" ==> text == c.result)
    && (c.status == "error" ==> text == "error: " + c.result)
    && (c.status == "declined" ==> text == "The user declined to run this action.")
  }

  /** The message tells the model of the call. */
  ghost predicate Told(m: Message, native: bool, c: ReplayedCall) {
    exists text :: Tells(text, c) && Brings(m, native, c.id, c.name, text)
  }

  lemma ResultTold(native: bool, c: ReplayedCall)
    requires Ended(c)
    ensures Told(ToolResultMessage(native, c.id, c.name, ResultText(c)), native, c)
  {
    hide Brings, ToolResultMessage, ResultText, Tells;
    ToldAs(c);
    ResultBrings(native, c.id, c.name, ResultText(c));
  }

  /** The positions of the calls that ended, in order. */
  predicate EndedAt(calls: seq<ReplayedCall>, at: seq<nat>) {
    && (forall k :: 0 <= k < |at| ==> at[k] < |calls| && Ended(calls[at[k]]))
    && (forall j, k :: 0 <= j < k < |at| ==> at[j] < at[k])
    && (forall i :: 0 <= i < |calls| && Ended(calls[i]) ==> i in at)
  }

  lemma {:induction false} FinishedAt(calls: seq<ReplayedCall>) returns (at: seq<nat>)
    ensures EndedAt(calls, at) && |at| == |FinishedCalls(calls)|
    ensures forall k :: 0 <= k < |at| ==> FinishedCalls(calls)[k] == calls[at[k]]
    decreases |calls|
  {
    hide Finished, Ended;
    at := [];
    if calls != [] {
      var n := |calls| - 1;
      var was := FinishedAt(calls[..n]);
      FinishedIs(calls[n]);
      at := was + if Finished(calls[n]) then [n] else [];
      EndedMore(calls, was);
    }
  }

  lemma FinishedIs(c: ReplayedCall)
    ensures Finished(c) <==> Ended(c)
  {
  }

  lemma EndedMore(calls: seq<ReplayedCall>, was: seq<nat>)
    requires calls != [] && EndedAt(calls[..|calls| - 1], was)
    ensures EndedAt(calls, was + if Ended(calls[|calls| - 1]) then [|calls| - 1] else [])
  {
    hide Ended;
    var n := |calls| - 1;
    var at := was + if Ended(calls[n]) then [n] else [];
    assert forall i :: 0 <= i < n ==> calls[..n][i] == calls[i];
    forall i | 0 <= i < |calls| && Ended(calls[i]) ensures i in at {
      if i == n {
        assert at[|at| - 1] == n;
      }
    }
  }

  /** One message with all the calls that ended, and then their results; or each call written out and answered. */
  ghost predicate HoldsReplay(out: seq<Message>, native: bool, calls: seq<ReplayedCall>, at: seq<nat>, marshal: Marshal) {
    if native then
      && |out| == (if at == [] then 0 else 1 + |at|)
      && (at != [] ==> out[0].role == Assistant && out[0].content == "" && |out[0].toolCalls| == |at|)
      && forall k :: 0 <= k < |at| && at[k] < |calls| ==>
           var c := calls[at[k]];
           && out[0].toolCalls[k] == ToolCall(c.id, c.name, c.args, 0)
           && Told(out[1 + k], true, c)
    else
      && |out| == 2 * |at|
      && forall k :: 0 <= k < |at| && at[k] < |calls| ==>
           var c := calls[at[k]];
           && out[2 * k] == Message(Assistant, marshal(c.name, c.args), [], "", "")
           && Told(out[2 * k + 1], false, c)
  }

  lemma NativeHolds(calls: seq<ReplayedCall>, at: seq<nat>, done: seq<ReplayedCall>, marshal: Marshal)
    requires |done| == |at| && EndedAt(calls, at) && forall k :: 0 <= k < |at| ==> done[k] == calls[at[k]]
    ensures HoldsReplay(NativeReplay(done), true, calls, at, marshal)
  {
    hide Told, ToolResultMessage, ResultText;
    var out := NativeReplay(done);
    forall k | 0 <= k < |at| ensures Told(out[1 + k], true, calls[at[k]]) {
      ResultTold(true, done[k]);
      assert out[1 + k] == Results(true, done)[k];
    }
  }

  lemma ToldAs(c: ReplayedCall)
    requires Ended(c)
    ensures Tells(ResultText(c), c)
  {
  }

  lemma {:induction false} WrittenHolds(calls: seq<ReplayedCall>, at: seq<nat>, done: seq<ReplayedCall>, marshal: Marshal)
    requires |done| == |at| && EndedAt(calls, at) && forall k :: 0 <= k < |at| ==> done[k] == calls[at[k]]
    ensures HoldsReplay(Written(done, marshal), false, calls, at, marshal)
  {
    hide Told, ToolResultMessage, ResultText, Written;
    var out := Written(done, marshal);
    forall k | 0 <= k < |at|
      ensures 2 * k + 1 < |out| && out[2 * k] == Message(Assistant, marshal(done[k].name, done[k].args), [], "", "")
              && Told(out[2 * k + 1], false, done[k])
    {
      WrittenAt(done, marshal, k);
      ResultTold(false, done[k]);
    }
    WrittenLength(done, marshal);
  }

  lemma {:induction false} WrittenLength(done: seq<ReplayedCall>, marshal: Marshal)
    ensures |Written(done, marshal)| == 2 * |done|
    decreases |done|
  {
    if done != [] {
      WrittenLength(done[..|done| - 1], marshal);
    }
  }

  lemma {:induction false} WrittenAt(done: seq<ReplayedCall>, marshal: Marshal, k: nat)
    requires k < |done|
    ensures var out, c := Written(done, marshal), done[k];
      && |out| == 2 * |done| && out[2 * k] == Message(Assistant, marshal(c.name, c.args), [], "", "")
      && out[2 * k + 1] == ToolResultMessage(false, c.id, c.name, ResultText(c))
    decreases |done|
  {
    hide ToolResultMessage, ResultText;
    var n := |done| - 1;
    if n > 0 {
      WrittenAt(done[..n], marshal, if k < n then k else 0);
    } else {
      assert done[..n] == [];
    }
  }

  /** A replayed turn shows every call of it that ended, in order, and what the model was told of it. */
  method Replay(native: bool, calls: seq<ReplayedCall>, marshal: Marshal) returns (out: seq<Message>)
    ensures exists at :: EndedAt(calls, at) && HoldsReplay(out, native, calls, at, marshal)
  {
    hide EndedAt, HoldsReplay, NativeReplay, Written, FinishedCalls;
    out := ReplayToolCalls(native, calls, marshal);
    ghost var at := FinishedAt(calls);
    if native {
      NativeHolds(calls, at, FinishedCalls(calls), marshal);
    } else {
      WrittenHolds(calls, at, FinishedCalls(calls), marshal);
    }
  }
}
