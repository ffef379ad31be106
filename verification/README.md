# Verification of the Kube Inspector backend

A Dafny model of the parts of the Go backend where order, ownership or text handling
is hard to get right, with proofs of what they guarantee. `dafny verify dfyconfig.toml`
checks everything.

| files | what they model |
|---|---|
| `Ownership`, `NodeShells`, `ExecSessions`, `Handoff`, `Sessions`, `SessionRuns`, `SessionGaps`, `SessionGrace`, `SessionCalls`, `SessionCloses`, `SessionRegistries` | node shells, pod exec sessions and their move between windows. A thread is the list of lock regions and API calls it has still to run; a run is any sequence of user calls and thread steps, each API call answering either way |
| `StreamGuard`, `Utf16`, `ChatRun`, `ChatReads`, `History`, `BraceScanner` | the chat engine: the streaming guard and the screen, the iteration loop, replayed histories, fitting to a token budget, the brace scanner |
| `Ids`, `ResourceGraph`, `GraphBuilder`, `EdgeLabels`, `OwnerHealth` | the resource graph: ids, nodes and edges, placeholders, and the health that travels up owner edges and to Ingresses |
| `LogPump`, `Utf8`, `Redact`, `RedactPass`, `RedactAlone`, `RedactPieces`, `RedactNames`, `RedactTouch`, `Text` | the log pump, and cluster-name redaction: one pass, one name on its own, the chain of passes for names of any characters but angle brackets, what it guarantees, and two names that touch |
| `PortForward`, `PortForwardRuns`, `PortForwardAlone` | one port forward from start to end, and its registry; all starts, stops and runs interleaved; one run or Stop among them, undisturbed |
| `ScanRegistry`, `ScanEnds`, `ClusterScan` | the registry of cluster scans, its goroutines and end events; one scan run with cancellation at any check |
| `DataObject`, `DataEditors`, `Base64` | the ConfigMap and Secret editor, and editors racing on one object |

Where the source updates fields or loops, the model has classes and methods
proved equal to specification functions; the theorems over whole runs are lemmas
about those functions.

What the proofs found out about the code:

- Registration overwrites without looking. A helper pod is orphaned, and an exec
  session never torn down, exactly when a registration writes over its entry, and
  that takes a registration inside the gap between another thread's release of the
  id and its own registration (`SessionRuns.LostIffOverwritten`,
  `SessionRuns.StrandedIffOverwritten`, `SessionGaps.OverwriteIsOverlap`; runs in
  `SessionRuns.GapLosesThePod` and `SessionRuns.GapStrandsTheSession`).
- The comment on placeholders (`internal/services/clusterResourceServices.go:777-778`)
  says that any required reference makes the issue an error. The code keeps the
  level of the first reference (`ResourceGraph.PlaceholderLevelIff`).
- A native reply may say a call as text beside its real calls, and a user may write
  what reads as a result. Replayed, such texts are paired only with each other
  (`ChatRun.HistoryPairedIff`, `ChatRun.ForgedResultUnpaired`).
- A pass misses a token exactly of names that overlap themselves behind a character
  that is no name character, such as a.a (`RedactPass.PassMissesNothingIff`). One pass
  leaves no token of its name, whatever the text, exactly when the name does not
  overlap itself so, its ends are both name characters or both not, and it does not
  read like its own label (`RedactAlone.AloneIff`).
- Names with open ends, such as (eu), are redacted right among themselves; beside a name
  that is passed over later and starts or ends with a name character they are left,
  unless that name is a whole token of theirs (`RedactTouch.PairIff`). Where the ends
  fit, redaction is right on every text exactly when no name overlaps itself and no
  cluster is named like the inside of a label in use (`RedactNames.RedactsIff`).
- The comment on stopping a scan (`internal/controller/functionBuilder.go:983-984`) says
  that after "false" no end event follows. That holds exactly when the end event is
  already out (`ScanRegistry.LateStop`, `ScanRegistry.EndAfterLateStop`).
- The comment on misconfig progress (`internal/business/trivyScan.go:66-68`) rules it
  out during the image loop. It looks and sends in two lock
  regions: a line passes then exactly when it was looked for before the images began
  and put before they ended (`ClusterScan.RunClusterScan`; a run in
  `ClusterScan.LateLine`).
- A stop of a port forward that found its row can leave the row behind: exactly when it
  closes the channel behind the run's last look, asks before the run has finished, and
  the run ends in error after having been ready (`PortForwardRuns.StopLeavesRowIff`; a
  run in `PortForwardRuns.StopLeavesRow`).
- A grace timer that fired leaves no node shell of its history, but an exec session of
  it may still be opened, exactly when its creator was past its ownership check
  (`SessionGrace.GraceExecIff`).

## Model

| member | source | states |
|---|---|---|
| `SessionRuns.PodHasOneHolder` | internal/services/nodeShellServices.go:86-201 | in every interleaving of Create, Close, stream ends, failed startups and grace timers, a helper pod is created at most once per session and delete-requested at most once; until then exactly one of the registry (name recorded), its creator before or after the ownership check, or a releaser that took the entry is going to delete it, unless its entry was overwritten |
| `SessionRuns.LostIffOverwritten` | internal/services/nodeShellServices.go:146-153 | a created pod that was not delete-requested and that nobody is going to delete exists if and only if some step of the run registered another node shell over its entry |
| `SessionGaps.OverwriteIsOverlap` | internal/services/nodeShellServices.go:129-153 | before every such registration, some registration of the same id fell between another thread's release of the id and its own registration |
| `SessionGaps.UncrossedPodIsKept` | internal/services/nodeShellServices.go:129-153 | no pod is orphaned in a run in which no registration of its id falls into another's gap |
| `SessionRuns.GapLosesThePod` | internal/services/nodeShellServices.go:129-153 | a concrete run of two Creates for one id with such an overlap, after which the first pod is orphaned |
| `SessionCalls.CloseNodeShellAlone` | internal/services/nodeShellServices.go:86-107 | closing a node shell, left alone: the id ends in neither registry, the named pod of the shell held there is asked to be deleted once, its exec session is torn down once, and nothing else is touched |
| `SessionCalls.CloseExecAlone` | internal/services/podExecServices.go:54-72 | closing an exec session, left alone: it is out of its registry and torn down once, and nothing else is touched |
| `SessionCalls.CreateNodeShellAlone` | internal/services/nodeShellServices.go:129-201 | opening a node shell, left alone and whatever its API calls answer: what was under the id is released; then the shell is registered and named with its pod created and its exec session opened, or nothing is registered and a pod that was created is asked to be deleted once; if every call succeeds it is the first, and a stream is listened to whose end closes the session |
| `SessionCalls.CreateExecAlone` | internal/services/podExecServices.go:80-160 | the same of an exec session: opened in the place of what was there, or not, and then that is at most released |
| `SessionCalls.StreamEndAlone` | internal/services/podExecServices.go:138-155 | a stream that ends, left alone: a session still registered is taken and torn down once, a node shell is released first and its named pod asked to be deleted, and onClosed is called once; for one that is not registered nothing happens |
| `SessionCalls.DetachAlone` | internal/services/execHandoffServices.go:77-105 | detaching, left alone: the exec session under the id, or else the node shell, waits under a new ticket, and the grace period that runs releases it from both registries if nobody comes for it |
| `SessionCalls.AttachAlone` | internal/services/execHandoffServices.go:110-124 | attaching, left alone: the pending detach of the session meant goes, and nothing else |
| `SessionCalls.TimerAlone` | internal/services/execHandoffServices.go:94-105 | a grace timer, left alone, releases its session if its entry is still the registered one, and does nothing otherwise |
| `SessionCloses.ClosedIsGone` | internal/services/nodeShellServices.go:206-209 | in every interleaving: once a close is done no exec session registered under its id when it was called is registered, then or ever after, and for a node shell's close no node shell either |
| `SessionCloses.CloseTakesWhatIsThere` | internal/services/nodeShellServices.go:86-107 | what is registered as a node shell under the id when the close takes its first step never is again |
| `SessionCloses.QuietShells` | internal/services/nodeShellServices.go:152-201 | in every interleaving: once all threads are done, a node shell still registered is one whose exec session was opened; a creation that failed leaves no entry |
| `SessionGaps.QuietPods` | internal/services/nodeShellServices.go:86-209 | once all threads are done, and no registration of its id fell into another's gap, a pod was delete-requested exactly once, or its session is still registered with the name |
| `SessionRuns.ExecTornDownOnce` | internal/services/podExecServices.go:46-73 | an exec session is opened at most once and torn down at most once, by the one that took its entry; until then it is registered, or with its taker, or its entry was overwritten |
| `SessionRuns.StrandedIffOverwritten` | internal/services/podExecServices.go:134-136 | an opened session that is not registered, not torn down and in nobody's hands exists if and only if some step registered over its entry |
| `SessionRuns.GapStrandsTheSession` | internal/services/podExecServices.go:98-136 | a concrete run of two Creates for one id after which the first session is stranded |
| `SessionGaps.ExecOverwriteIsOverlap` | internal/services/podExecServices.go:98-136 | before every such registration, some registration of the id fell between another thread's release of it and its own registration |
| `SessionGaps.QuietExecs` | internal/services/podExecServices.go:54-160 | once all threads are done, and no registration of its id fell into another's gap, an opened session is registered or was torn down exactly once |
| `SessionRuns.ClosedIsTheStreams` | internal/services/podExecServices.go:138-148 | onClosed is called at most once, only when the session's own stream won the take, and for a node shell only after the shell's entry is gone |
| `SessionRuns.TimerTakesItsOwn` | internal/services/execHandoffServices.go:55-105 | a grace timer that released something had fired while its entry was the registered one, was never attached or replaced, and released a session of its own id and history |
| `SessionRuns.DisarmedTimerTakesNothing` | internal/services/execHandoffServices.go:86-122 | a timer whose entry was attached or replaced releases nothing, however the run continues |
| `SessionRuns.GraceClosesTheSession` | internal/services/execHandoffServices.go:55-105 | left alone, a timer that finds its entry empties both registries of its own session, a shell still starting, a plain exec or both, deletes its pod if it is named, tears its exec session down, and touches nothing else |
| `SessionGrace.GraceLeavesNoShell` | internal/services/execHandoffServices.go:55-105 | in every interleaving, once a timer that fired is past its first half no node shell of its history is registered, then or ever after |
| `SessionGrace.GraceExecIff` | internal/services/execHandoffServices.go:55-105 | in every interleaving, the step that ends the timer's second half leaves no exec session of its history registered, and one is opened later in some continuation if and only if its creator is already past the check of the shell's entry and on its way to open it |
| `SessionGrace.EveryRunGraced` | internal/services/execHandoffServices.go:55-122 | every run keeps what those two rest on: one session a number, the halves of a timer's work in order, and what a pending detach or release knows of its session |
| `Sessions.EveryRun` | internal/services/nodeShellServices.go:86-209 | the whole invariant of the three registries holds after any sequence of calls and thread steps |
| `Sessions.StepInv` | internal/services/podExecServices.go:54-160 | any thread's next step keeps the invariant, whatever its API call answers |
| `NodeShells.PodKeptByRelease` | internal/services/nodeShellServices.go:86-119 | taking an entry, reading the pod name and deleting keep the pod's accounting |
| `NodeShells.PodKeptByCreator` | internal/services/nodeShellServices.go:141-184 | registering, creating and the ownership check keep the pod's accounting, whichever way Create and the check go |
| `NodeShells.GoneFirst` | internal/services/nodeShellServices.go:186-194 | an ended stream goes on to onClosed only when the shell's entry is gone |
| `ExecSessions.ExecKept` | internal/services/podExecServices.go:54-160 | each lock region keeps the exec session's accounting: opened once, taken once, torn down by the taker |
| `ExecSessions.EndKept` | internal/services/podExecServices.go:138-148 | onClosed follows a take by the stream one for one |
| `Handoff.TicketKept` | internal/services/execHandoffServices.go:77-125 | a pending detach is armed once and leaves the table once: fired, attached or replaced |
| `SessionRegistries.NodeShellRegistry.Release` | internal/services/nodeShellServices.go:86-94 | exactly the taken session stops being held, nothing is taken when a later session has the id, and it is the model's step |
| `SessionRegistries.NodeShellRegistry.Register` | internal/services/nodeShellServices.go:151-153 | the new session is held, whatever was under its id no longer is, and every other session still is |
| `SessionRegistries.NodeShellRegistry.RecordName` | internal/services/nodeShellServices.go:163-174 | the name is recorded exactly when the entry is still the session's own |
| `SessionRegistries.ExecRegistry.Release` | internal/services/podExecServices.go:54-66 | exactly the taken session stops being held, nothing is taken when a later session has the id, and it is the model's step |
| `SessionRegistries.ExecRegistry.Register` | internal/services/podExecServices.go:134-136 | the new session is held, whatever was under its id no longer is, and every other session still is |
| `SessionRegistries.DetachTable.Put` | internal/services/execHandoffServices.go:83-93 | the new entry holds its token, any other under the id lost it, all others keep theirs, and the timer is the new one's |
| `SessionRegistries.DetachTable.Withdraw` | internal/services/execHandoffServices.go:116-121 | exactly the pending detach of the session that was looked up loses its token; one of another session under the id keeps it |
| `SessionRegistries.DetachTable.Expire` | internal/services/execHandoffServices.go:93-103 | the timer goes on exactly when its own entry still holds the token, and only that token is gone then |
| `StreamGuard.Guard.Write` | internal/ai/agent.go:248-276 | for every splitting into chunks the guard has sent the left-trimmed text up to the first '{' or code fence of all it received, less at most two trailing backticks, and the screen holds exactly that |
| `StreamGuard.Guard.Out` | internal/ai/agent.go:278-293 | sent text grows by the piece, leading whitespace dropped and a blank line put between iterations |
| `Text.TrimLeftIs` | internal/ai/agent.go:278-294 | what is dropped in front is white space, and what is left starts with none |
| `StreamGuard.Guard.Flush` | internal/ai/agent.go:301-308 | after flush the screen has gained the whole left-trimmed text: nothing lost, repeated or dependent on the chunks |
| `StreamGuard.Guard.Streamed` | internal/ai/agent.go:295-299 | the number to take back is the UTF-16 length of what this iteration emitted |
| `StreamGuard.Screen.Retract` | internal/ai/agent.go:138-142 | taking back as many units as a text encodes to, behind any base, leaves exactly the base |
| `StreamGuard.CutPoint` | internal/ai/agent.go:257-260 | the cut is the first place where a brace or a fence starts, or there is none |
| `StreamGuard.FirstHoldIsFirst` | internal/ai/agent.go:257-261 | the place held from is held, and no earlier one is |
| `StreamGuard.AtMostTwoTicksWithheld` | internal/ai/agent.go:265-270 | without a hold the withheld tail is at most two backticks |
| `StreamGuard.FirstHoldAfter` | internal/ai/agent.go:248-276 | searching only the pending ticks and the new chunk finds the same first hold as searching the whole text |
| `StreamGuard.ProseAfter` | internal/ai/agent.go:248-276 | the prose of the text so far grows by exactly the prose of the new piece |
| `StreamGuard.HoldIsFinal` | internal/ai/agent.go:248-276 | once held, more text never changes what counts as prose |
| `StreamGuard.FlowingStep` | internal/ai/agent.go:248-276 | one chunk while streaming keeps the guard's refinement of the whole text |
| `StreamGuard.FlushStep` | internal/ai/agent.go:301-308 | flush turns what was tracked into the whole text |
| `Utf16.EncodeConcat` | internal/ai/agent.go:295-299 | UTF-16 encoding is compatible with concatenation (RFC 2781 section 2.1) |
| `Utf16.DecodeEncode` | internal/ai/agent.go:295-299 | UTF-16 decoding gives the text back |
| `ChatRun.RunChat` | internal/ai/agent.go:92-178 | a chat run of any length ends for exactly one of four reasons; the screen gained the kept texts of its iterations, non-empty ones joined by blank lines; the messages are their transcript; each request is the best fit of the transcript so far |
| `ChatReads.RunHolds` | internal/ai/agent.go:118-161 | the messages of a run are the history and, iteration by iteration, the reply with its calls, from the native field or else from its text, and behind it each call's result as the tool gave it, filed under the call |
| `ChatReads.TextIsReadBack` | internal/ai/agent.go:310-318 | the tool's text can be told from its result message, in native and in prompt mode |
| `ChatRun.RunIteration` | internal/ai/agent.go:97-174 | one reply: a text tool call leaves the screen as it was, any other reply adds its left-trimmed text; the messages grow by the reply and its results |
| `ChatRun.TranscriptPairedIff` | internal/ai/agent.go:149-175 | whatever the model says, every message list a run reaches pairs each call, in the field or written as text, with exactly its results, if and only if the history it started from did |
| `ChatRun.ConversationPaired` | internal/business/ai.go:101-160 | from the turns through the replayed history and a run of any length: every message list is paired if and only if the turns are matched, and then so is every request, however much was dropped to fit |
| `ChatRun.HistoryPairedIff` | internal/business/ai.go:135-160 | the replayed history is paired if and only if every text that reads as a result directly answers a text that reads as its call, and no text that reads as a call is left without one; turns that left no messages do not count |
| `ChatRun.ForgedResultUnpaired` | internal/business/ai.go:135-160 | a user turn that reads as the result of a tool is replayed as a result without a call |
| `ChatRun.TurnsPairedIff` | internal/business/ai.go:148-160 | the same of any sequence of turns that left messages |
| `ChatRun.BuildHistory` | internal/business/ai.go:135-160 | the history is the system prompt and each turn's messages in order |
| `ChatRun.JoinedSnoc` | internal/ai/agent.go:278-293 | a separator goes in exactly between non-empty texts |
| `History.ReplayToolCalls` | internal/ai/agent.go:333-365 | the loop yields the native block or the written pairs of the finished calls |
| `ChatReads.Replay` | internal/ai/agent.go:333-365 | a replayed turn holds every call that ended, in order, and of each what the model was told: its result, its error, or the refusal |
| `History.NativeReplayThen` | internal/ai/agent.go:333-365 | a native replay answers its own calls: with anything behind it, the whole is paired if and only if that is |
| `History.WrittenReplayThen` | internal/ai/agent.go:333-365 | a prompt-mode replay answers each written call: with anything behind it, the whole is paired if and only if that is |
| `History.PairedConcat` | internal/ai/agent.go:149-175 | pairing is kept by appending |
| `History.PairedCut` | internal/ai/context.go:139-149 | cut in front of anything that is no result, both parts of a paired history are paired |
| `History.FitHistory` | internal/ai/context.go:124-175 | the result is the system message and the suffix from the least turn boundary that fits, or from the newest user turn if none does; unchanged when it fits or has no boundary |
| `History.EstimateReads` | internal/ai/context.go:115-121 | a token for three characters and four for each message; a call weighs as much as its name and arguments would as text |
| `History.SumTokens` | internal/ai/context.go:131-134 | the total is the true sum of the estimates |
| `History.TurnStarts` | internal/ai/context.go:139-146 | the boundaries are exactly the user messages that are not prompt-mode results |
| `History.DropTurns` | internal/ai/context.go:152-172 | the running total stays the true size of what is left, and the cut is the least boundary that fits, else the last |
| `History.TokensConcat` | internal/ai/context.go:114-134 | the estimate of a concatenation is the sum |
| `History.BestFitUnique` | internal/ai/context.go:124-175 | at most one message list is the best fit |
| `History.FitIdempotent` | internal/ai/context.go:124-175 | fitting a fitted history changes nothing |
| `History.FitKeepsPairs` | internal/ai/context.go:124-175 | fitting never keeps a result without its call |
| `BraceScanner.JsonObjectSpans` | internal/ai/agent.go:461-497 | on every input the spans are exactly the top-level balanced objects outside strings, disjoint and increasing, starting and ending on braces |
| `BraceScanner.FoundStep` | internal/ai/agent.go:467-494 | one character keeps the scanner's account of complete and open spans |
| `BraceScanner.ValueIsSkipped` | internal/ai/agent.go:461-497 | inside an object any JSON value, with any whitespace between its tokens and any way of writing its strings (RFC 8259 sections 2 and 7), leaves the scanner where it was |
| `BraceScanner.GlyphsAreSkipped` | internal/ai/agent.go:469-479 | a string's content never ends it early, however each character is written: itself, a two-character escape or four hex digits |
| `BraceScanner.ObjectIsOneSpan` | internal/ai/agent.go:461-497 | an object is one span however it is printed, whatever braces its strings hold |
| `BraceScanner.SpansOfReply` | internal/ai/agent.go:461-497 | round trip: for objects in any rendering of RFC 8259 between prose free of quotes and braces, the spans are exactly the objects' offsets in order |
| `BraceScanner.ToolNameBefore` | internal/ai/agent.go:442-456 | the result is the identifier that ends the text, separators ignored |
| `BraceScanner.GapsAndNames` | internal/ai/agent.go:445-449 | which ASCII codes separate a name from its arguments, and which make a name |
| `BraceScanner.NameIsFound` | internal/ai/agent.go:442-456 | a name followed only by separators is found again |
| `LogPump.PumpLogStream` | internal/services/logServices.go:271-302 | for every sequence of reads the pieces are the bytes read, in order (a prefix if cancelled); pending holds no newline and stays bounded; pieces of valid UTF-8 are valid UTF-8 |
| `LogPump.RuneBoundary` | internal/services/logServices.go:304-314 | on any bytes exactly an incomplete character at the end is cut off, at most three bytes; of the beginning of valid text that is the longest valid prefix |
| `LogPump.CutAtLastStart` | internal/services/logServices.go:304-314 | for the start of valid text the prefix cut there is valid, and a longer one is not |
| `LogPump.FullIffWhole` | internal/services/logServices.go:306-311 | at the start of a character FullRune asks exactly whether the character is whole |
| `LogPump.CutBehindNewline` | internal/services/logServices.go:281-283 | cutting behind a newline cuts between characters |
| `LogPump.Emitted` | internal/services/logServices.go:281-290 | emitting a prefix loses and repeats nothing |
| `Utf8.ValidIff` | internal/services/logServices.go:264-270 | the valid texts are exactly the encodings of sequences of code points without surrogates, by the arithmetic of RFC 3629 section 3 |
| `Utf8.FullIff` | internal/services/logServices.go:306-311 | FullRune is false exactly for no bytes and for the proper prefixes of a character |
| `Utf8.ValidConcat` | internal/services/logServices.go:264-270 | valid texts concatenate, and a valid prefix may be taken off (RFC 3629 sections 3 and 4) |
| `Utf8.ValidSplit` | internal/services/logServices.go:304-314 | valid text may be cut in front of any byte that starts a character |
| `Utf8.LastRune` | internal/services/logServices.go:304-314 | the last character start before a position begins the character the position is in |
| `Redact.ReplaceToken` | internal/business/redact.go:192-221 | the index loop computes the left-to-right, non-overlapping replacement |
| `Redact.NameCharsAre` | internal/business/redact.go:223-225 | a name character is an ASCII letter or digit, a hyphen or an underscore |
| `RedactPass.PassMissesNothingIff` | internal/business/redact.go:192-221 | for any name, one pass comes to look at every whole token of every text if and only if the name does not overlap itself behind one of its other characters |
| `RedactPass.ReplacedIsPass` | internal/business/redact.go:192-221 | for any name the search by offsets is the pass that steps over every occurrence and replaces the whole tokens among them |
| `RedactPass.DottedNameLeaks` | internal/business/redact.go:196-219 | a.a is such a name, and aa.a.a a text the pass leaves as it is |
| `RedactPass.PassIsScan` | internal/business/redact.go:192-221 | for all other names the loop is the scan that replaces every whole token |
| `RedactAlone.AloneIff` | internal/business/redact.go:192-221 | for any name, one pass leaves no whole token of it in any text if and only if the name does not overlap itself so, its ends are both name characters or both not, and it does not read like its own label |
| `RedactAlone.BracketFreeAloneIff` | internal/business/redact.go:192-221 | the same for names without angle brackets, where only the inside of its label reads so |
| `RedactAlone.MixedEndsLeak` | internal/business/redact.go:192-221 | a name with ends of two kinds is left where it touches itself, for every such name |
| `Redact.PassIsWholeSubstitution` | internal/business/redact.go:192-221 | for a name of name characters one pass replaces exactly the maximal runs equal to the name |
| `Redact.ChainIsSubstitution` | internal/business/redact.go:177-187 | for names of name characters the chain is one simultaneous substitution, in any order; for others see RedactPieces.ChainTags |
| `Redact.TwoPasses` | internal/business/redact.go:177-187 | two passes fuse when no label's inside is a later name |
| `RedactNames.RedactsIff` | internal/business/redact.go:157-187 | for names without angle brackets whose ends fit, longest first: on every text labels take the place of names, no token is missed or taken apart by a shorter name, and no name is left, if and only if no cluster is named like the inside of a label in use and none overlaps itself |
| `RedactNames.EndsFitIff` | internal/business/redact.go:177-187 | ends fit exactly when each name's are of one kind and the names with open ends come last |
| `RedactNames.TokensHide` | internal/business/redact.go:177-187 | once its pass is over every whole token of a name in the source is covered by a label, its own or that of an earlier pass, with the longest first of a name no shorter; whatever the ends of the names |
| `RedactNames.StaysHidden` | internal/business/redact.go:177-187 | and later passes leave it covered |
| `RedactNames.OverlapFails` | internal/business/redact.go:177-219 | the first name that overlaps itself has a text in which its token is in plain sight after its pass, whatever the other names |
| `RedactNames.CoreNameFails` | internal/business/redact.go:171-187 | with a cluster named like the inside of a label in use, the text that is the name of that label's cluster is not redacted right |
| `RedactPieces.ChainTags` | internal/business/redact.go:177-187 | for any names without angle brackets, none the inside of a label, and in any order of the passes: the text is the source with labels in the place of names, and each name stood as a whole token when its pass came, beside no name character but one that an earlier pass had replaced |
| `RedactPieces.PassTags` | internal/business/redact.go:192-221 | one pass over a partly redacted text tags what it would tag in the source's pieces, and nothing in or across a label |
| `RedactPieces.NoneStands` | internal/business/redact.go:177-187 | after the passes nothing stands of any name, if the ends fit and no name overlaps itself |
| `RedactTouch.TouchLeaks` | internal/business/redact.go:177-221 | a name that ends with no name character, in front of one that starts with one and is passed over later, is left by the label of the other, for all such names that are the only tokens of the text |
| `RedactTouch.TouchLeaksBehind` | internal/business/redact.go:177-221 | the same behind a name that ends with a name character |
| `RedactTouch.OpenEndLeaks` | internal/business/redact.go:177-221 | the least such pair: prod. is left in prod.eu |
| `RedactTouch.PairIff` | internal/business/redact.go:177-221 | two names that are each redacted right alone: none is left in any text if and only if their ends fit, or the second is a whole token of the first |
| `RedactNames.RedactIdempotent` | internal/business/redact.go:157-187 | redacting twice is redacting once, in any order of the passes in which the ends fit |
| `RedactNames.RedactClusters` | internal/business/redact.go:177-187 | the composed redactor is the chain, with what follows for the names it is given |
| `Redact.LabelsDistinct` | internal/business/redact.go:172-175 | different clusters keep different labels |
| `Text.DecimalReads` | internal/business/redact.go:172-175 | a printed number reads as itself, without leading zeros |
| `Ids.ParsePrinted` | internal/services/clusterResourceServices.go:708-725 | parsing a printed resource id gives its kind, namespace and name back |
| `Ids.LowersLetters` | internal/services/clusterResourceServices.go:800-802 | a printed kind is in small letters, letter by letter |
| `Ids.EdgeIdInjective` | internal/services/clusterResourceServices.go:794-798 | different endpoint pairs have different edge ids |
| `GraphBuilder.Builder.ResolveEdges` | internal/services/clusterResourceServices.go:727-783 | resolveEdges leaves exactly the resolved graph of the nodes and pending edges it started from |
| `GraphBuilder.Builder.ProcessEdge` | internal/services/clusterResourceServices.go:736-772 | one pending edge: dropped, drawn, merged or broken, as the model's step |
| `GraphBuilder.Builder.MergeEdge` | internal/services/clusterResourceServices.go:757-772 | an edge is drawn once under its id; a second one adds its label, and its issue if it is worse |
| `GraphBuilder.Builder.InsertNode` | internal/services/clusterResourceServices.go:316-325 | a node is added once, at its index |
| `GraphBuilder.Builder.NoteIssue` | internal/services/clusterResourceServices.go:335-347 | an issue is recorded once per code and parameters, whatever its level |
| `GraphBuilder.Builder.LabelEdges` | internal/services/clusterResourceServices.go:774-776 | every labelled edge gets its capped label, in any map order |
| `EdgeLabels.EdgeSaysAll` | internal/services/clusterResourceServices.go:680-691 | a drawn edge says the non-empty texts of all pending edges shown under its id, each once and in the order first said: up to two in full, of more the first two and the number of the others |
| `EdgeLabels.PartsAreTexts` | internal/services/clusterResourceServices.go:757-761 | the collected parts are exactly those texts |
| `GraphBuilder.Builder.SettlePlaceholders` | internal/services/clusterResourceServices.go:777-782 | every placeholder keeps one issue, the most severe, in any map order |
| `GraphBuilder.AssembleGraph` | internal/services/clusterResourceServices.go:307-350 | any nodes, edges and optional edges, added in any order and then resolved, give exactly the resolved graph of those parts |
| `ResourceGraph.BuiltEdgesQualify` | internal/services/clusterResourceServices.go:794-798 | edges whose ids are printed from ends without > are what resolveEdges is proved for |
| `ResourceGraph.EdgesAreSound` | internal/services/clusterResourceServices.go:732-783 | after resolveEdges edge ids are unique and both endpoints of every edge are nodes |
| `ResourceGraph.MissingIff` | internal/services/clusterResourceServices.go:727-783 | a node is missing exactly when a checked-kind edge from a drawn source names an undrawn, checkable, non-excluded target; it then carries one issue, and an edge is broken exactly when its target is missing |
| `ResourceGraph.MissingMeansDemanded` | internal/services/clusterResourceServices.go:693-760 | an absent object is drawn as missing if and only if a config, storage or ingress edge from something drawn by then names it, its kind was listed in full and it is not kube-root-ca.crt |
| `ResourceGraph.PlaceholderIff` | internal/services/clusterResourceServices.go:736-760 | which targets become placeholders, for every prefix of the pending list |
| `ResourceGraph.PlaceholderLevelIff` | internal/services/clusterResourceServices.go:754-782 | a placeholder that leads nowhere itself has the level its references call for if and only if its first reference is required or none is |
| `ResourceGraph.OptionalFirstStaysWarning` | internal/services/clusterResourceServices.go:335-347 | an optional reference first and a required one second leave the placeholder a warning |
| `ResourceGraph.ResolvingStep` | internal/services/clusterResourceServices.go:736-772 | one pending edge keeps the account of nodes, edges, labels and issues |
| `ResourceGraph.FinishedIsResolved` | internal/services/clusterResourceServices.go:774-782 | labels and settled placeholders complete the resolved graph |
| `ResourceGraph.WorstOfIsWorst` | internal/services/clusterGraphHealth.go:293-302 | worstIssue is the first issue of the highest rank, or none |
| `ResourceGraph.WorstIssue` | internal/services/clusterGraphHealth.go:293-302 | the loop computes it |
| `OwnerHealth.FailingUnder` | internal/services/clusterGraphHealth.go:87-102 | an owner's count is the number of failing pods that reach it by one or more owner edges, for every owner graph, cycles included |
| `OwnerHealth.Climb` | internal/services/clusterGraphHealth.go:89-101 | the search counts one pod at everything above it and ends on every graph |
| `OwnerHealth.CollectOwners` | internal/services/clusterGraphHealth.go:42-52 | the owner lists are the owner edges |
| `OwnerHealth.ClosedHoldsAbove` | internal/services/clusterGraphHealth.go:89-101 | a set closed under owning holds everything above the pod |
| `OwnerHealth.OneMoreBelow` | internal/services/clusterGraphHealth.go:87-102 | one more pod adds one to exactly what is above it |
| `OwnerHealth.IngressVerdict` | internal/services/clusterGraphHealth.go:162-195 | an Ingress is down if and only if every Service it names has an error at some mention, and fine if and only if none has an issue |
| `PortForward.Session.Run` | internal/services/portForwardServices.go:290-370 | the run on its own, closes of its channel by others included: exactly one report, nil if and only if the first attempt came up and else what failed; one dial for each turn that gets to it, for the pod and port it resolved; the row stays if and only if the run ended in error after having been ready, with the last turn's error; closed is terminal; at most five dials, one for a pinned pod, with the pauses of the table between them; one non-zero local port from the first ready on |
| `PortForwardRuns.StopLeavesRowIff` | internal/services/portForwardServices.go:333-356 | over every interleaving, when the run and every Stop that found the session are over, its row is still there if and only if the run ended in error after having been ready and each of those Stops closed the channel behind the run's last look at it and asked before the run had finished |
| `PortForwardRuns.StopLeavesRow` | internal/services/portForwardServices.go:486-503 | such a run, in nine steps, with one Stop that found its session |
| `PortForwardRuns.OnlyItsOwnRemoval` | internal/services/portForwardServices.go:542-553 | over every interleaving a session stops being registered only by its own run's removal or that of a Stop that found it, and only when it has finished: no removal touches another |
| `PortForwardRuns.LiveIsRegistered` | internal/services/portForwardServices.go:260-266 | a session whose run has not finished is the one under its id, so a Stop finds it |
| `PortForwardRuns.ClosedForGood` | internal/services/portForwardServices.go:290-313 | once a session's status says closed it does in every continuation |
| `PortForwardRuns.OneMoreTurn` | internal/services/portForwardServices.go:321-369 | after its channel is closed a session begins at most one more turn |
| `PortForwardRuns.OneLateTurn` | internal/services/portForwardServices.go:321-369 | of all the turns of a session no two begin with its channel closed |
| `PortForwardAlone.StartedAndRun` | internal/services/portForwardServices.go:260-370 | a forward started under a free id whose run nobody disturbs goes through the turns Session.Run does, whatever they answer: its row stays exactly where that keeps it, and otherwise the registry is as before and the status says closed |
| `PortForwardAlone.StopAlone` | internal/services/portForwardServices.go:486-503 | a Stop nobody disturbs closes the channel of the session under the id, and removes the row of one whose run has ended |
| `PortForwardRuns.EveryRun` | internal/services/portForwardServices.go:260-370 | the whole invariant of runs, rows and calls holds after any sequence of starts, stops, timeouts and steps |
| `PortForward.Session.Connect` | internal/services/portForwardServices.go:315-331 | a turn's resolve and dial: the pod and port found are published and dialled with the bound local port; what it reports, what it fails with and what it leaves, panics included |
| `PortForward.Session.Settle` | internal/services/portForwardServices.go:333-368 | what becomes of a session whose tunnel ended: closed, error, or another turn, with the backoff in bounds |
| `PortForward.Session.RunOnce` | internal/services/portForwardServices.go:372-452 | the dial asks for the bound port; becoming ready publishes the port and reports once |
| `PortForward.PortKeptByReady` | internal/services/portForwardServices.go:425-437 | a ready step with an honest forwarder keeps one port over all events and dials |
| `PortForward.PortKeptByEvent` | internal/services/portForwardServices.go:172-186 | a status event keeps it |
| `PortForward.Registry.Stop` | internal/services/portForwardServices.go:486-503 | a Stop with nothing between its steps closes the channel, removes a finished session's row and closes it; a live one stays; all interleavings are in PortForwardRuns |
| `PortForward.Registry.Remove` | internal/services/portForwardServices.go:542-553 | exactly this session stops being registered; a replacement under its id, and every other, stays |
| `PortForward.Registry.Register` | internal/services/portForwardServices.go:260-266 | an id in use is refused |
| `ScanRegistry.OneEndEvent` | internal/controller/functionBuilder.go:949-975 | every started scan wins its finish and has emitted exactly one end event when its goroutine is over, none before |
| `ScanEnds.DoneIff` | internal/controller/functionBuilder.go:958-969 | the end event is done if and only if the goroutine is over and the scan returned without an error |
| `ScanEnds.CancelledIff` | internal/controller/functionBuilder.go:958-969 | it is cancelled if and only if the scan returned with an error, and before that a stop found the scan and cancelled its context |
| `ScanEnds.FailedIff` | internal/controller/functionBuilder.go:958-969 | it is an error if and only if the scan returned with that error and was not cancelled so by then |
| `ScanRegistry.OneScanPerCluster` | internal/controller/trivyScanRegistry.go:43-56 | at most one scan of a cluster is running |
| `ScanRegistry.StoppingUntilFinish` | internal/controller/trivyScanRegistry.go:69-127 | after a cancel the cluster reports stopping in every later state until the scan finishes |
| `ScanRegistry.ShowsLastReport` | internal/controller/trivyScanRegistry.go:69-82 | while a scan runs and nobody stops it, it shows the last progress its run reported |
| `ScanRegistry.CancelledWasAsked` | internal/controller/functionBuilder.go:958-969 | a scan ends as cancelled only if it was asked to stop |
| `ScanRegistry.LateStop` | internal/controller/functionBuilder.go:981-994 | for a scan a stop no longer finds, no end event follows in any continuation if and only if its end event is already out |
| `ScanRegistry.EndAfterLateStop` | internal/controller/functionBuilder.go:981-994 | a run in which an end event follows a stop that answered false |
| `ScanRegistry.EveryRun` | internal/controller/trivyScanRegistry.go:43-127 | byCluster and byID stay mutually inverse, and each running scan keeps its own entry and token, in every run |
| `ScanRegistry.FinishedKeeps` | internal/controller/trivyScanRegistry.go:84-99 | finishing one scan changes no other |
| `ScanRegistry.Registry.Begin` | internal/controller/trivyScanRegistry.go:40-55 | begin starts a scan or hands back the running one's id |
| `ScanRegistry.Registry.Report` | internal/controller/trivyScanRegistry.go:69-82 | progress is kept only while the scan runs and is not stopping |
| `ScanRegistry.Registry.Cancel` | internal/controller/trivyScanRegistry.go:112-127 | cancel marks the scan stopping and keeps its counts |
| `ScanRegistry.Registry.Finish` | internal/controller/trivyScanRegistry.go:84-99 | finish removes the scan from both maps exactly when the token is its entry's |
| `ScanRegistry.Registry.Running` | internal/controller/trivyScanRegistry.go:101-110 | running answers for a cluster exactly when a scan of it is registered |
| `ClusterScan.RunClusterScan` | internal/business/trivyScan.go:95-208 | a returned scan was saved exactly once and is complete; a run caught by any check for cancellation saves nothing; whatever the misconfig goroutine does between any two uses of the gate, the run's own lines pass in order and the others are misconfig lines; one of these passes during the images if and only if it was looked for before they began and put before they ended or the gate closed; none passes after the return |
| `ClusterScan.LateLine` | internal/business/trivyScan.go:66-76 | a run of one target in which such a line passes |
| `ClusterScan.ScanImages` | internal/business/trivyScan.go:143-161 | every target once, in order, until cancelled |
| `ClusterScan.Wind` | internal/business/trivyScan.go:163-207 | after the images: every check passed and the save succeeded, or nothing is saved |
| `ClusterScan.ScanOneImage` | internal/business/trivyScan.go:214-251 | no entry exactly when the run is cancelled; a failed scan is a failed entry, with an unreadable pull secret as its reason |
| `ClusterScan.ScannedIffTargets` | internal/business/trivyScan.go:143-161 | for distinct images an image has findings if and only if its status is scanned, and they are its own |
| `ClusterScan.AgreesIffDistinct` | internal/business/trivyScan.go:143-161 | status and findings agree for every course of the scans if and only if no image is listed twice |
| `ClusterScan.MisconfigScan.Go` | internal/business/trivyScan.go:46-88 | any number of the goroutine's looks and puts leaves the run's own lines alone and adds only misconfig lines; during the images the line held before is late exactly when it is put, and no other is looked for; none passes once the gate is closed |
| `ClusterScan.CountFailed` | internal/business/trivyScan.go:290-296 | the history entry counts the failed images |
| `DataObject.UneditedSaveKeeps` | internal/services/dataObjectServices.go:44-147 | loading and saving unedited keeps a Secret's data always, and a ConfigMap's data/binaryData split if and only if every data value is valid UTF-8 |
| `DataObject.UneditedIsAccepted` | internal/services/dataObjectServices.go:152-177 | what was loaded is accepted again if and only if its keys are legal and no key is on both sides |
| `DataObject.SplitIff` | internal/services/dataObjectServices.go:149-177 | a list of entries is accepted if and only if its keys are legal and different and its values base64, and each value then is on its side |
| `DataObject.DecodeEntries` | internal/services/dataObjectServices.go:149-177 | the loop computes the split or the first entry's error |
| `DataObject.Load` | internal/services/dataObjectServices.go:51-79 | every key is listed once with its encoded value and flag |
| `Base64.RoundTrip` | internal/services/dataObjectServices.go:62-66 | base64 decoding gives back every byte sequence (RFC 4648 section 4) |
| `Base64.DecodesIff` | internal/services/dataObjectServices.go:164-170 | a value decodes if and only if, line breaks aside, it is whole quanta of the alphabet with at most two padding characters, all at the end (RFC 4648 section 4) |
| `Base64.BreaksAreSkipped` | internal/services/dataObjectServices.go:164-170 | line breaks change nothing, wherever they stand |
| `DataEditors.NoLostUpdate` | internal/services/dataObjectServices.go:85-147 | over any interleaving of editors, writers and removals a save with a loaded version commits over exactly that version, so what it replaces is what every load of that version showed; no save commits over an immutable object |
| `DataEditors.SaveAlone` | internal/services/dataObjectServices.go:89-147 | a save with nothing between its read and its update: if it is accepted the object has a new version with its entries and one commit says what it was put over; a dry run or a refused save changes nothing |
| `DataEditors.LoadShows` | internal/services/dataObjectServices.go:44-79 | the next load shows what was written, under a version never given out before, and of a removed object nothing |
| `DataEditors.ActInv` | internal/services/dataObjectServices.go:89-147 | every step keeps versions, loads, pending saves and commits consistent |
| `DataEditors.Store.Save` | internal/services/dataObjectServices.go:89-147 | a save succeeds exactly when its entries are accepted and the object is there, mutable and of the loaded version; otherwise, and in a dry run, nothing changes |
| `DataEditors.Store.Update` | internal/services/dataObjectServices.go:117-121 | an update commits exactly over the version it carries |

## Left out

- Kubernetes, Ollama, Trivy, WebSocket, SPDY and pty calls: each is a step or a parameter that answers either way. Create is taken to succeed exactly when the pod exists; waiting for the pod is one step that succeeds or fails.
- Session identities: one Create call makes one history, one node shell entry and one exec entry, so one number stands for all three pointers; `terminalHistory` and its replayed output are not part of this model.
- Stopping a timer: `time.Timer.Stop` is left out, so a stopped timer may still run its callback, which then finds its entry gone; the runs proved about include all real ones. The cancel functions of sessions are not tracked, as waits may fail at any time anyway.
- Writing to and resizing an exec session: both use the session outside the lock, and no ordering with its teardown is claimed.
- Characters and bytes: the model's texts are sequences of characters where the source has UTF-8 bytes. All characters searched for are ASCII and nothing else is looked at, so everything but `Utf16` reads the same with a byte for each character.
- History.FitHistory: sizes count the characters of the model's texts, which are the source's sizes when each stands for a byte.
- parseTextToolCalls: the calls a text spells are a parameter of the chat run; only the brace scanner and the name search in it are modelled. runCall's effects, confirmation and tool events are the text each call returns. JSON printing of arguments is a parameter.
- JSON texts: every text of RFC 8259 is one of the model's, and some more, as any text of number characters is taken for a number and keys may repeat.
- ChatRun.ConversationPaired: rests on parseTextToolCalls reading any call text with a name as a call, which the prompt-mode rendering of a call is.
- numCtxFor, the tool schemas' share of the budget, and TruncateResult: the budget is a parameter.
- The log session registry and stream start: the pump is modelled from its reader on.
- Redaction rules other than cluster names; names are taken as sorted, compacted and not blank, and the order of the passes is any with the longest first.
- RedactNames.RedactsIff: names whose ends do not fit, and names with angle brackets, are outside it. One alone is covered by `RedactAlone.AloneIff`; whether a larger set with unfitting ends leaves a name depends on which of its names hold others, and is settled for two (`RedactTouch.PairIff`).
- RedactNames.RedactIdempotent: for the names of which none is left, that is where the ends fit and none overlaps itself.
- Redact.ChainIsSubstitution: a substitution of runs of name characters, so for such names only; `RedactPieces.ChainTags` is the statement for others.
- Issue parameters: compared as values, where the source compares their printed form.
- How pending edges come about (selectors, Ingress rules, pod specs), pod warnings, Services' own issues, storage and events: the graph and its owner and Ingress health start from nodes, edges and levels.
- Port forwards: argument checks, log lines and the dialer are left out; resolving, dialling and panics are answers of the environment, and the start timeout and the shutdown of all forwards may close a channel at any time.
- PortForward.Session.Run: one run without other starts and removals in the registry meanwhile; those are in `PortForwardRuns`. Its clause on the local port rests on a forwarder that binds a non-zero port it is asked for and reports one when left to choose; without such a report an automatic port would be published as 0.
- PortForward.Registry.Stop: its steps without others between them; those are in `PortForwardRuns`.
- SessionRuns.GraceClosesTheSession: the timer's thread running alone, which is when all of its session is closed at once; `SessionGrace` has every interleaving.
- Scans: enrichment, the version stamp and severity counts carry no property here; progress is recorded before it is emitted, and no order of emissions is claimed. New scan ids are taken to be unused.
- Data objects: the API server's rule for keys is a parameter, versions are numbers, and the sort of the loaded entries is left out, since saving does not depend on their order.
- The get/list/delete wrappers, other controllers, the IPC hub, the updater, the toolbox and the frontend.
