# A verified model of the agent runtime and its terminal renderer

The repository is an agent toolkit: a terminal user interface that redraws only what changed, a runtime that
lets a model take turns with tools, sessions stored as a tree of entries, compaction of long conversations,
and text algorithms around them. This project models the parts whose correctness cannot be read off one
function, and proves what they promise for every input, every run and every interleaving.

`dafny verify dfyconfig.toml` checks the whole project.

## The components

**Renderer** (`Lines`, `Screens`, `Rendering`, `RenderProofs`, `ClearingProofs`, `RenderRuns`, `Seen`, `Economy`,
`Margins`). A terminal is a tape of rows with a window of `height` rows; a line feed on the last row scrolls, relative moves stop at the
edges of the window (CUU, CUD, CHA, EL and ED in section 8.3 of ECMA-48). `Tui` and `Terminal` are classes
updated in place; each method is proved equal to a function on values, and the theorems are about runs of those
functions over any list of frames.

- On the inline surface every accepted frame leaves exactly what a first draw on an unused terminal would
  leave, cursor included, and no row above the starting row is ever changed.
- On the clearing surface this is *false*, and the project says exactly when. When lines are only appended to
  a frame that already fills the window, the move to the row below the last line stops at the bottom of the
  window, the last line of the old frame is erased and what is above it stays one row too low.
  `ClearingProofs.LosesRow` is that family, stated on the frames and the window height alone;
  `RenderRuns.ClearingRun` proves that a run shows every frame if and only if it never steps into the family,
  and `RenderRuns.ClearingLosesRow` is a run of two frames that does. After a lost row the window is right again
  at the next frame that rewrites all of it: `ClearingProofs.Repaints` says which these are, again on the frames and
  the height alone, and `RenderRuns.ClearingRecovers` carries on from there, whatever was lost before.
- Either way a reader sees the text of the frame character by character, and the cursor at its marker (`Seen`), and
  rows whose lines did not change are not written (`Economy`).
- On either surface no text ever runs past the right margin, so that what a terminal does there never matters.

**Turn runtime** (`Messages`, `Tools`, `ToolOrder`, `Flow`, `AgentTurn`, `AgentProofs`, `AgentRuns`, `Halting`,
`Conversations`, `TurnContext`, `Runtime`, `Transcript`, `AgentFlow`, `Legacy`).
The runtime is a machine: the outer loop and the nodes of its graph are steps of the run; `steer`, `follow_up`
and `abort` by other tasks are steps that may come between any two of them. What providers, tools, hooks and
the summarizer answer is part of a step, so every theorem holds for all answers. `TurnContext` has the mutable
objects, each node a method; `Runtime` drives them through the outer loop and the graph while other tasks change the
shared state between any two steps, is proved to do what the machine does in the same interleaving, and so inherits
the theorems about runs. `Halting` proves that a limit on turns brings every run to its end, `Conversations` that the
messages stay paired over runs in which compaction replaces them. `Transcript` says what a run writes down, step by
step: the replies it told, what each tool call came to, what it took from the queues, and exactly why it ended. `AgentFlow` proves that an iteration of the machine
is a run of the flow engine over the graph of the turn. `Legacy` models the older loop and proves that the flow runtime does
the same, for any number of rounds.

**Sessions** (`SessionTree`, `Branch`, `BranchBudget`, `Session`, `Gathering`, `Rebuild`). Walks along parent pointers and the
three ways they end; the entries abandoned when a session moves to another branch; the storage that keeps its leaf up to
date; the conversation rebuilt around the latest compaction.

**Compaction** (`Utf8`, `Weights`, `Compaction`, `CompactionPairs`). Saturating token estimates, usage anchors, the split into
what is summarized and what is kept, the estimate afterwards, and what happens to tool calls and their results.

**Streams and text** (`Proxy`, `Truncate`, `Fuzzy`, `FuzzyScores`, `JsonRepair`). Reassembly of interleaved content streams,
truncation by lines and bytes, greedy fuzzy matching and ranking, completion of cut-off JSON.

### Where a stated property fails

| where | what fails, and an input | exactly when it holds |
|---|---|---|
| clearing surface | agreement with a full redraw; `RenderRuns.ClearingLosesRow` | `RenderRuns.ClearingRun`: the run never appends fewer than a windowful of lines to a frame that fills the window, unless the rows that should move look alike |
| completing JSON | a beginning of well-nested text becomes well-nested; `JsonRepair.BackslashSwallowsQuote` | `JsonRepair.NestsExactly`: the text does not break off right behind a backslash in a string; `JsonRepair.ClosesExactly` says the same of closing the text and of completing twice |
| proxy streams | acceptance decided by an index's own events; `Proxy.PaddingIsAccepted` | `Proxy.AcceptedIsOwn`: the streams are accepted one by one if and only if their interleaving is and every index is opened first |
| stored leaf | equals the inferred leaf; `Session.SessionEntryHidesLeaf` | `Session.LeavesAgree`: the log does not end with a `session` entry |
| compaction split | conserves every message; `Compaction.ResultInNeitherHalf` | `Compaction.ConservesExactly`: the threshold is not passed, or the last message is no tool result |
| compaction at the budget | keeps every tool call with its results; `CompactionPairs.CallLosesAnswer` (a result at the end) and `CompactionPairs.AnswerLosesCall` (a cut in front of a result) | `CompactionPairs.BudgetStaysPaired`: the conversation does not end with a result, and the message where the budget parts it is none |
| budgeted split | the longest end within the budget, or one message; `Compaction.WrappedSumIsKept` | `Compaction.StopIsLongest`: at the first message, from the end, that brings the true sum over the budget, the sum as 32 bits hold it is over the budget too; `Compaction.FittingStopIsLongest` is a simpler condition that is enough |
| budgeted branch summary | the longest end within the budget; `BranchBudget.WrappedSumIsTaken` | `BranchBudget.StopIsLongestEnd`: as above; `BranchBudget.FittingStopIsLongestEnd` is enough |

## Model

| member | source | states |
|---|---|---|
| `Lines.ExtractCursorMarker` | crates/pi-tui/src/cursor.rs:11-25 | in place: of all lines in the window only the first marker of the last marked one is taken out, its row and column are reported, no text is lost and no other line changes |
| `Lines.MarkerIsTakenOut` | crates/pi-tui/src/cursor.rs:11-25 | that is what happens to every frame, line by line and control sequence by control sequence |
| `Lines.SameLookSameRow` | crates/pi-tui/src/tui.rs:943-962 | two lines look the same in every column if and only if they make the same row |
| `Screens.Terminal.Put` | crates/pi-tui/src/virtual_terminal.rs:157-162 | writing a line changes the cursor's row from the cursor on and leaves every other row alone; text past the right margin stays on its row and is remembered |
| `Screens.Terminal.LineFeed` | crates/pi-tui/src/tui.rs:769-778 | the cursor goes down one row; the window scrolls exactly when it was on the last row |
| `Screens.Terminal.Move` | crates/pi-tui/src/virtual_terminal.rs:164-172 | a relative move stops at the edges of the window |
| `Rendering.Tui.PutLines` | crates/pi-tui/src/tui.rs:769-778 | the loop that writes lines, against its function on screens |
| `Rendering.Tui.Rewrite` | crates/pi-tui/src/tui.rs:780-808 | the loop that clears and rewrites rows, and where the cursor's row is afterwards |
| `Rendering.Tui.GoToLogicalRow` | crates/pi-tui/src/tui.rs:836-844 | the move by the difference of two 16-bit rows relative to the viewport |
| `Rendering.Tui.RenderFullInline` | crates/pi-tui/src/tui.rs:641-668 | a first draw, or a redraw of all rows ever owned |
| `Rendering.Tui.RenderDifferentialInline` | crates/pi-tui/src/tui.rs:714-767 | falls back above the viewport, appends below the last line, or rewrites the changed rows |
| `Rendering.Tui.RenderFullClearing` | crates/pi-tui/src/tui.rs:623-639 | clears the screen and writes everything |
| `Rendering.Tui.RenderDifferentialClearing` | crates/pi-tui/src/tui.rs:690-712 | moves by absolute rows, clears from there and writes the rest |
| `Rendering.Tui.PositionHardwareCursor` | crates/pi-tui/src/tui.rs:810-834 | the cursor goes to the marker and is shown, or is hidden |
| `Rendering.Tui.ChangedLineRange` | crates/pi-tui/src/tui.rs:943-962 | the first and last position where the frames differ, or none |
| `Rendering.Tui.RenderLines` | crates/pi-tui/src/tui.rs:595-621 | chooses between nothing, a full and a differential draw, and draws |
| `Economy.StrategyMeans` | crates/pi-tui/src/tui.rs:595-613 | all is drawn anew exactly at first, in another size or with fewer lines; nothing exactly for the same lines; otherwise from the first line that differs to the last one |
| `Rendering.Tui.RenderOnce` | crates/pi-tui/src/tui.rs:463-501 | refuses exactly the frames with a line wider than the terminal, names the first such line and changes nothing; otherwise draws, places the cursor and keeps what was drawn |
| `RenderProofs.RowDeltaExact` | crates/pi-tui/src/tui.rs:836-844 | the wrapping 16-bit difference of two rows of a window is the true difference |
| `RenderProofs.InlineDraw` | crates/pi-tui/src/tui.rs:595-668 | from a state in sync, every strategy puts the last lines of the frame at the region top with blanks below |
| `RenderProofs.InlineStep` | crates/pi-tui/src/tui.rs:463-501 | every call on the inline surface keeps fields and screen in sync, shows the frame and puts the cursor at the marker, visible exactly when there is one |
| `RenderRuns.InlineRun` | crates/pi-tui/src/tui.rs:463-501 | after any number of frames, accepted or not, the state is in sync and nothing above the start was touched |
| `RenderRuns.InlineAgreesWithFreshDraw` | crates/pi-tui/src/tui.rs:641-668 | after any frames, an accepted frame looks as if drawn first on any other terminal of that size: every row below the region top, cursor position and visibility |
| `Seen.InlineRunShowsText` | crates/pi-tui/src/tui.rs:463-501 | after any run an accepted frame is read as it was given: the text of its last lines column by column, nothing below, and the cursor at the marker |
| `Margins.NothingPastMargin` | crates/pi-tui/src/tui.rs:463-501 | over any number of frames, on either surface, nothing is written past the right margin, once the renderer starts at the start of a row or clears the screen |
| `ClearingProofs.ReplacedShows` | crates/pi-tui/src/tui.rs:690-712 | a differential draw that starts on the right row, or starts above the viewport and therefore rewrites more than a windowful, shows the frame |
| `ClearingProofs.OverflowShows` | crates/pi-tui/src/tui.rs:690-712 | when the start lies below the window the frame is shown if and only if the neighbouring rows look alike |
| `ClearingProofs.ClearingStep` | crates/pi-tui/src/tui.rs:463-501 | every call on the clearing surface keeps size, last frame and cursor as the fields say; a call that repaints shows its frame from any rows, and from right rows a frame is shown if and only if the step is outside the failing family |
| `ClearingProofs.RepaintsExactly` | crates/pi-tui/src/tui.rs:690-712 | a step puts the window right whatever rows were on show if and only if the frame shrinks, its first line changes, or the change leaves at least a windowful to write |
| `RenderRuns.ClearingRun` | crates/pi-tui/src/tui.rs:690-712 | from any screen, a run of any length shows every accepted frame if and only if it never enters the failing family |
| `Seen.ClearingRunIsRead` | crates/pi-tui/src/tui.rs:463-501 | outside the failing family every accepted frame of a run is read as it was given, with the cursor at the marker |
| `RenderRuns.ClearingRecovers` | crates/pi-tui/src/tui.rs:623-712 | after any run, however many rows it lost, a frame that repaints is on show with its cursor, and from there on every frame is shown if and only if the run stays outside the failing family |
| `ClearingProofs.ResizedRecovers` | crates/pi-tui/src/tui.rs:595-639 | after the terminal has changed its size, from any fields and any screen, the next frame that fits is on show with its cursor |
| `Seen.ClearingRecoversRead` | crates/pi-tui/src/tui.rs:623-712 | and so are a frame that repaints and those behind it, however many rows were lost before |
| `Economy.SameFrameWritesNothing` | crates/pi-tui/src/tui.rs:595-621 | a frame like the one before leaves every row as it is, whatever is on show |
| `Economy.InlineWritesOnlyChanges` | crates/pi-tui/src/tui.rs:714-767 | a row is left as it is, whatever is on show there, when the lines up to its own did not change, or those from its own on in a frame of one length |
| `Economy.ClearingWritesFromChange` | crates/pi-tui/src/tui.rs:690-712 | the rows above the first change are left as they are, except the last one of the window |
| `RenderRuns.ClearingLosesRow` | crates/pi-tui/src/tui.rs:690-712 | a run of two frames in a window of two rows that ends with the wrong lines on show |
| `Flow.FlowBuilder.AddNode` | crates/pi-agent-core/src/flow.rs:199-210 | accepts exactly new, non-empty ids and keeps the graph closed |
| `Flow.FlowBuilder.EdgeOn` | crates/pi-agent-core/src/flow.rs:220-232 | accepts exactly edges between known nodes and keeps the graph closed; says which error an empty id or an unknown node gives |
| `Flow.FlowBuilder.RunWithOptions` | crates/pi-agent-core/src/flow.rs:238-362 | the loop, against the recursive meaning of a run |
| `Flow.RunFromEnds` | crates/pi-agent-core/src/flow.rs:238-362 | from any point of a walk, a run goes on along the graph and ends with its outcome and its events as the path demands |
| `Flow.EveryRunIsAWalk` | crates/pi-agent-core/src/flow.rs:238-385 | every run of a graph built through the builder is a walk with as many steps as its path is long, at most the limit; the trace alternates starts and ends and has one final event; an unknown node is never reported |
| `Flow.StepEventsAt` | crates/pi-agent-core/src/flow.rs:262-300 | by position: each step of a run tells its start and its end with the node's name, the action and the step's number |
| `Flow.OutgoingLeads` | crates/pi-agent-core/src/flow.rs:310-345 | a node counts as one with outgoing transitions exactly when some action leads on from it |
| `Tools.ExtractExact` | crates/pi-agent-core/src/loop_runtime/tools.rs:18-38 | a request is extracted if and only if the content has that tool call at that position |
| `Tools.SequentialMeans` | crates/pi-agent-core/src/loop_runtime/tools.rs:40-53 | calls run one after the other exactly when the agent says so or the first tool that bears the name of a call does |
| `Tools.AppendToolResultMessages` | crates/pi-agent-core/src/loop_runtime/tools.rs:55-70 | one message per execution behind the others, in the order of the indices, each with the call's id and name and with the content and the error flag the execution came to |
| `Tools.RunSequential` | crates/pi-agent-core/src/agent_turn_flow/nodes.rs:704-735 | the sequential loop, its executions and its events |
| `Tools.SortRestores` | crates/pi-agent-core/src/agent_turn_flow/nodes.rs:807-821 | whatever order executions finish in, sorting restores the order of the calls |
| `Tools.BatchIsCalls` | crates/pi-agent-core/src/agent_turn_flow/nodes.rs:686-770 | sequential and parallel batches hand on the same executions, for every order of completion |
| `Tools.BatchReportsAll` | crates/pi-agent-core/src/agent_turn_flow/nodes.rs:686-770 | in either mode and for every order of completion the messages report, call by call, what the tool came to |
| `Tools.EveryStartHasItsEnd` | crates/pi-agent-core/src/agent_turn_flow/nodes.rs:704-822 | in either mode every call is announced once, in order, with its arguments, and its end is told once with its outcome; updates are told only one call after the other |
| `ToolOrder.BatchInOrder` | crates/pi-agent-core/src/agent_turn_flow/nodes.rs:686-822 | in both modes and for every order of completion, no call has ended more often than it has started at any point, and at the end of the batch everything has ended |
| `ToolOrder.NeverAheadMeans` | crates/pi-agent-core/src/agent_turn_flow/nodes.rs:686-822 | never ahead means that no beginning of the events has more ends than starts of a call |
| `ToolOrder.RunInOrder` | crates/pi-agent-core/src/agent_turn_flow/runtime.rs:115-191 | the same over every run and every interleaving, at every moment between two steps |
| `TurnContext.DrainQueue` | crates/pi-agent-core/src/queues.rs:4-9 | takes everything or at most one message from the front, by mode, and leaves the rest |
| `TurnContext.AgentState.SteerWith` | crates/pi-agent-core/src/agent.rs:117-127 | appends one user message, named after the number of those waiting, to the steering queue and changes nothing else |
| `TurnContext.AgentState.FollowUpWith` | crates/pi-agent-core/src/agent.rs:129-139 | the same for the follow-up queue |
| `TurnContext.DecimalReads` | crates/pi-agent-core/src/agent.rs:117-139 | the number in an id is written in digits without a leading zero and reads back as it was |
| `TurnContext.AgentState.AbortRun` | crates/pi-agent-core/src/agent.rs:291-293 | cancels the token and nothing else |
| `TurnContext.TurnContext.constructor` | crates/pi-agent-core/src/agent_turn_flow/runtime.rs:129-137 | the snapshot takes over messages and queues, and the shared queues are emptied under the same lock |
| `TurnContext.TurnContext.SyncLiveQueues` | crates/pi-agent-core/src/agent_turn_flow/context.rs:114-121 | live messages go behind those of the context and leave the shared queues |
| `TurnContext.TurnContext.WriteBack` | crates/pi-agent-core/src/agent_turn_flow/context.rs:143-160 | the context's queues go in front of what was enqueued meanwhile |
| `TurnContext.TurnContext.StartTurn` | crates/pi-agent-core/src/agent_turn_flow/nodes.rs:211-234 | against the machine's node: cancellation, the turn limit, the announced turn |
| `TurnContext.TurnContext.DrainQueuedInput` | crates/pi-agent-core/src/agent_turn_flow/nodes.rs:236-241 | against the machine's node: steering messages move from the queue to the messages |
| `TurnContext.TurnContext.MaybeCompactContext` | crates/pi-agent-core/src/agent_turn_flow/nodes.rs:435-460 | against the machine's node: the conversation is replaced and reported, left alone, or the node fails |
| `TurnContext.TurnContext.PrepareProviderRequest` | crates/pi-agent-core/src/agent_turn_flow/nodes.rs:275-358 | against the machine's node: the request is there, or the hook's error is told |
| `TurnContext.TurnContext.ApplyBeforeHook` | crates/pi-agent-core/src/agent_turn_flow/nodes.rs:360-398 | against the machine's node: the request is announced only when there is one and the hook agrees |
| `TurnContext.TurnContext.PassOn` | crates/pi-agent-core/src/agent_turn_flow/nodes.rs:481-503 | the loop passes on exactly the events up to the first terminal one and reports how it ended |
| `TurnContext.TurnContext.StreamProvider` | crates/pi-agent-core/src/agent_turn_flow/nodes.rs:464-514 | against the machine's node: a reply, or an error event |
| `TurnContext.TurnContext.DecideAfterAssistant` | crates/pi-agent-core/src/agent_turn_flow/nodes.rs:567-609 | against the machine's node, for every stop reason |
| `TurnContext.TurnContext.ExecuteTools` | crates/pi-agent-core/src/agent_turn_flow/nodes.rs:686-770 | against the machine's node, for both modes and every order of completion |
| `TurnContext.TurnContext.MaybePrepareNextTurn` | crates/pi-agent-core/src/agent_turn_flow/nodes.rs:612-684 | against the machine's node: stop, fail or go on with what is queued |
| `TurnContext.TurnContext.RunNodeNamed` | crates/pi-agent-core/src/agent_turn_flow/runtime.rs:48-97 | every node of the graph does what the machine's node does |
| `Runtime.RunFlow` | crates/pi-agent-core/src/agent_turn_flow/runtime.rs:141-167 | one run of the objects through the graph, with the looks at the token and the step limit and with other tasks between any two steps, leaves what the machine leaves in the same interleaving |
| `Runtime.RunState` | crates/pi-agent-core/src/agent_turn_flow/runtime.rs:115-191 | the outer loop on the objects, under every interleaving with other tasks: shared state, events and whether it goes on are those of the machine |
| `Runtime.RunAndTell` | crates/pi-agent-core/src/agent_turn_flow/runtime.rs:115-200 | what the objects tell in every interleaving: turns in order within the limit, no two requests in one turn, one final event exactly when halted, every tool end after a start of its own; and with a limit on turns they halt |
| `Runtime.Interfere` | crates/pi-agent-core/src/agent.rs:117-139 | what other tasks do to the shared state by `steer`, `follow_up` and `abort` is what the machine's outside steps do |
| `Runtime.EveryInterleaving` | crates/pi-agent-core/src/agent_turn_flow/runtime.rs:115-191 | every interleaving is one that the objects are run under, followed by what other tasks do after the last step |
| `Runtime.QuietScripts` | crates/pi-agent-core/src/agent_turn_flow/runtime.rs:129-183 | the runs without other tasks are runs that nobody interferes with, so that `AgentFlow.IterationIsRun` speaks of them |
| `AgentFlow.TurnGraphIs` | crates/pi-agent-core/src/agent_turn_flow/runtime.rs:48-97 | the graph of the turn has the nodes of the turn, its transitions are those of the machine, and it is closed, so that every run of it is a walk |
| `AgentFlow.NamesInUseDiffer` | crates/pi-agent-core/src/agent_turn_flow/runtime.rs:29-39 | the names in use tell nodes and actions apart |
| `AgentFlow.IterationIsRun` | crates/pi-agent-core/src/agent_turn_flow/runtime.rs:129-183 | an iteration that nobody interferes with, in whatever run it stands, leaves the state, the events and the result of a run of the flow engine over the graph of the turn |
| `AgentRuns.RunKeepsCore` | crates/pi-agent-core/src/agent_turn_flow/runtime.rs:115-191 | the queue, message, event and node invariants of the machine hold after every interleaving of run steps, enqueues and cancellation, from any state |
| `AgentRuns.RunKeepsInv` | crates/pi-agent-core/src/agent_turn_flow/runtime.rs:115-191 | and so does the pairing of calls and results, when the queues start with user messages |
| `AgentRuns.EventProtocol` | crates/pi-agent-core/src/agent_turn_flow/runtime.rs:115-200 | in every run turns are announced 1 to k within the limit, two requests are never in one turn, and a final event is the last event and is there exactly when the run has halted |
| `Halting.EveryRunHalts` | crates/pi-agent-core/src/agent_turn_flow/runtime.rs:115-200 | with a limit on turns every interleaving with at least 19 steps of the run per turn, and three more, has halted with a final event told |
| `AgentRuns.QueueConservation` | crates/pi-agent-core/src/agent_turn_flow/runtime.rs:130-184 | in every run and both queue modes, delivered, held and still queued messages make up everything enqueued, in order, also after errors and cancellation |
| `AgentRuns.TranscriptPairing` | crates/pi-agent-core/src/agent_turn_flow/nodes.rs:567-684 | whenever the outer loop goes on, each message of the run that asks for tools is followed at once by one result per call, with equal ids in content order |
| `Transcript.ToolResultsAreRecorded` | crates/pi-agent-core/src/agent_turn_flow/nodes.rs:686-770 | whenever a run executes tools, its record has from then on what each call came to, in content order, and it takes note exactly whether all of them end the run |
| `Transcript.RepliesAreRecorded` | crates/pi-agent-core/src/agent_turn_flow/nodes.rs:464-609 | at every moment the model's messages on record are the replies told, whole and in order, but for one that is about to be recorded or was cut off |
| `Transcript.SteeringIsTaken` | crates/pi-agent-core/src/agent_turn_flow/nodes.rs:236-241 | each turn takes from the steering queue by its mode, everything or one message, and puts it behind the conversation |
| `Transcript.CompactionIsTaken` | crates/pi-agent-core/src/agent_turn_flow/nodes.rs:435-460 | what a compaction leaves is what the turn goes on with, and it is told; otherwise nothing changes |
| `Transcript.RequestIsBuilt` | crates/pi-agent-core/src/agent_turn_flow/nodes.rs:275-358 | the last hook is given the request that was built |
| `Transcript.RequestIsSent` | crates/pi-agent-core/src/agent_turn_flow/nodes.rs:360-398 | the request that reaches the provider is the one the last hook gave, and the one told |
| `Transcript.FollowUpIsTaken` | crates/pi-agent-core/src/agent_turn_flow/nodes.rs:612-684 | a run that goes on after a turn without tools takes from the follow-up queue by its mode and puts the rest back |
| `Transcript.EndsExactly` | crates/pi-agent-core/src/agent_turn_flow/nodes.rs:211-684 | a step of a reachable run ends it exactly for one of the listed reasons and tells that reason last; a missing request or reply and the step limit never end one |
| `Transcript.HistoryExists` | crates/pi-agent-core/src/agent_turn_flow/runtime.rs:115-191 | every run has the history these speak of |
| `Conversations.ConversationStaysPaired` | crates/pi-agent-core/src/agent_turn_flow/nodes.rs:400-684 | over every run whose replacements are compactions that meet the two conditions, or paired, the whole conversation stays paired whenever the outer loop goes on |
| `Conversations.CompactionKeepsPairing` | crates/pi-agent-core/src/agent_turn_flow/nodes.rs:400-462 | a compaction of a paired conversation that meets the conditions is paired |
| `Conversations.ReplacementIsCompaction` | crates/pi-agent-core/src/agent_turn_flow/nodes.rs:400-462 | what `MaybeCompact` puts in place of a conversation is such a compaction when its halves meet the conditions |
| `AgentRuns.StepLimitOutOfReach` | crates/pi-agent-core/src/agent_turn_flow/runtime.rs:141-148 | no iteration ever comes near the flow's step limit |
| `Legacy.LegacyToolsAgree` | crates/pi-agent-core/src/agent_turn_flow/runtime.rs:640-1042 | the older loop and the flow node append the same results, tell the same events and stop on the same batches |
| `Legacy.RoundMatches` | crates/pi-agent-core/src/agent_turn_flow/runtime.rs:383-1042 | from any standstill, one round of the machine ends with the messages, queues, turn and events of one round of the older loop |
| `Legacy.FlowMatchesLegacy` | crates/pi-agent-core/src/agent_turn_flow/runtime.rs:383-1042 | in every trace of the machine on its own, after any number of rounds of the older loop there is a moment with the same messages, queues, turn and events, and both go on or both stop |
| `Legacy.FinalStateIsLegacys` | crates/pi-agent-core/src/agent_turn_flow/runtime.rs:115-191 | a run that halts has ended as the older loop ends |
| `Legacy.TraceExists` | crates/pi-agent-core/src/agent_turn_flow/runtime.rs:115-191 | for every configuration, oracle and start there is a trace of the machine on its own |
| `SessionTree.PathToRoot` | crates/pi-agent-core/src/branch_summary.rs:286-311 | a path is the one root path; a missing entry is one the walk runs into; a reported cycle is one the walk comes back to |
| `SessionTree.LoopNeverLeaves` | crates/pi-agent-core/src/session_context/context.rs:41-66 | once a walk has come back to an entry, no walk from there arrives at a root or at a missing entry |
| `SessionTree.EndsExclude` | crates/pi-agent-core/src/session_context/context.rs:30-70 | the three ends of a walk exclude one another |
| `SessionTree.OneRootPath` | crates/pi-agent-core/src/branch_summary.rs:286-311 | there is at most one path from a root to an entry |
| `SessionTree.MeetingPathsAgree` | crates/pi-agent-core/src/branch_summary.rs:95-103 | two root paths that meet anywhere meet at the same depth and are the same up to there |
| `Branch.CollectEntries` | crates/pi-agent-core/src/branch_summary.rs:80-126 | succeeds if and only if both entries have roots; the common ancestor is where the two paths part, the entries are the rest of the old path and none of them is on the target path; otherwise the first failing walk is reported |
| `Branch.Abandon` | crates/pi-agent-core/src/branch_summary.rs:105-120 | the second walk, without a record of where it has been, ends and collects exactly what is below the ancestor |
| `BranchBudget.PrepareEntries` | crates/pi-agent-core/src/branch_summary.rs:128-170 | for all inputs: the messages handed on are an end of the branch, where the sum as 32 bits hold it stays within the budget, and one older summary more exactly when it is next and nine tenths of the budget were not used up; the total is theirs, and the files are exactly those that earlier branch summaries no hook wrote list |
| `BranchBudget.TextsGather` | crates/pi-agent-core/src/branch_summary.rs:140-163 | the messages considered are those of exactly the entries that have one, in order |
| `BranchBudget.StretchesExactly` | crates/pi-agent-core/src/branch_summary.rs:147-158 | a message over the budget is taken exactly when it is a summary and less than nine tenths of the budget are used, in whole numbers |
| `BranchBudget.CollectFiles` | crates/pi-agent-core/src/branch_summary.rs:129-137 | a file is collected if and only if some earlier branch summary that no hook wrote lists it |
| `BranchBudget.OneChoice` | crates/pi-agent-core/src/branch_summary.rs:140-162 | that describes one choice |
| `BranchBudget.StopIsLongestEnd` | crates/pi-agent-core/src/branch_summary.rs:140-162 | it is the longest end within the budget if and only if the sum at the first message that brings it over the budget does not wrap around to something within it |
| `BranchBudget.FittingStopIsLongestEnd` | crates/pi-agent-core/src/branch_summary.rs:140-162 | it is when every message fits 32 bits on top of the budget |
| `BranchBudget.WrappedSumIsTaken` | crates/pi-agent-core/src/branch_summary.rs:140-162 | two messages whose sum wraps around and that are both taken |
| `Branch.PartOnce` | crates/pi-agent-core/src/branch_summary.rs:95-103 | paths part at one place only |
| `Session.LeavesAgree` | crates/pi-agent-core/src/session_context/context.rs:15-28 | for every log, exactly when the stored leaf is the inferred one |
| `Session.SessionEntryHidesLeaf` | crates/pi-agent-core/src/session_context/context.rs:15-28 | a log whose stored leaf is not the inferred one |
| `Session.InferredIsEarlierStored` | crates/pi-agent-core/src/session_context/context.rs:15-28 | the inferred leaf is the stored leaf of the log up to its last entry that is no `session` entry |
| `Session.MemoryStorage.AppendEntry` | crates/pi-agent-core/src/session_context/memory.rs:42-60 | refuses exactly ids that are there and then changes nothing; else entries, index and leaf are those of the longer log, and a log whose parents and targets came earlier stays one |
| `Session.MemoryStorage.GetLeaf` | crates/pi-agent-core/src/session_context/memory.rs:38-40 | the leaf kept up to date is the leaf of the whole log |
| `Session.EntryHasRoot` | crates/pi-agent-core/src/session_context/context.rs:30-70 | in a log whose parents and targets were appended earlier every entry has a root path |
| `Rebuild.LeafHasPath` | crates/pi-agent-core/src/session_context/context.rs:245-256 | in such a log the inferred leaf, and every entry, has a path |
| `Rebuild.Configure` | crates/pi-agent-core/src/session_context/context.rs:262-298 | the pass finds the last complete setting of each kind and the latest compaction |
| `Rebuild.SettingsAreLast` | crates/pi-agent-core/src/session_context/context.rs:262-298 | by position: each setting is the one of the last complete entry of its kind on the path, and the default when there is none |
| `Rebuild.ContextIsConversation` | crates/pi-agent-core/src/session_context/context.rs:205-243 | by position: every message an entry of the path holds and every branch summary is in the conversation, once, in order, and nothing else; around a compaction the summary comes first, then what is kept with usage reset, then the rest |
| `Rebuild.AppendKept` | crates/pi-agent-core/src/session_context/context.rs:306-317 | the loop appends, without usage, exactly the entries from the first kept one on |
| `Rebuild.BuildContext` | crates/pi-agent-core/src/session_context/context.rs:245-328 | succeeds if and only if the leaf has a path, and then conversation and settings are those of the path by position; never fails on a log whose parents and targets were appended earlier |
| `Rebuild.AnchorAfterCompaction` | crates/pi-agent-core/src/session_context/context.rs:300-326 | after a rebuild an anchor stems from an entry strictly after every compaction on the path |
| `Rebuild.AppendExtendsContext` | crates/pi-agent-core/src/session_context/context.rs:245-328 | appending below the leaf extends the rebuilt conversation by that entry; appending a compaction starts it anew from the summary and the kept entries |
| `Compaction.EstimateTokens` | crates/pi-agent-core/src/compaction/estimate.rs:4-32 | for any messages: a quarter of the bytes of every text in them, rounded up, and a fixed weight for every image, summed up as far as 32 bits hold it |
| `Compaction.EstimateWeighs` | crates/pi-agent-core/src/compaction/estimate.rs:4-56 | the estimate is the capped sum over all texts and images, whatever kind of message holds them; an excluded bash execution has none |
| `Utf8.BytesAreRead` | crates/pi-agent-core/src/compaction/estimate.rs:34-36 | the length counted is that of an encoding by section 3 of RFC 3629 from which the text is read back |
| `Compaction.ContextTokensMean` | crates/pi-agent-core/src/compaction/estimate.rs:60-75 | a usage counts for its total, or for the capped sum of its parts |
| `Compaction.AnchorsMean` | crates/pi-agent-core/src/compaction/estimate.rs:94-109 | exactly the replies that came to a proper end and report some usage are anchors |
| `Compaction.EstimateConcat` | crates/pi-agent-core/src/compaction/estimate.rs:4-56 | the estimate of a concatenation is the saturated sum of the estimates |
| `Compaction.LastValidUsage` | crates/pi-agent-core/src/compaction/estimate.rs:94-109 | finds the newest anchor, or shows there is none |
| `Compaction.EstimateContextTokens` | crates/pi-agent-core/src/compaction/estimate.rs:122-146 | the usage at the newest anchor plus the heuristic for exactly what follows it |
| `Compaction.OneEstimate` | crates/pi-agent-core/src/compaction/estimate.rs:122-146 | that description fits one estimate only |
| `Compaction.PrepareCompaction` | crates/pi-agent-core/src/compaction/prepare.rs:21-61 | for all inputs: below the threshold all is kept; above it the halves are the messages without the tool results at the end, parted in front of the first message, from the end, that brings the sum as 32 bits hold it over the budget |
| `Compaction.OnePreparation` | crates/pi-agent-core/src/compaction/prepare.rs:21-61 | that describes one pair of halves |
| `Compaction.StopIsLongest` | crates/pi-agent-core/src/compaction/prepare.rs:35-57 | what is kept is the longest end within the budget, or one message, if and only if the sum at the first message, from the end, that brings it over the budget does not wrap around to something within it |
| `Compaction.FittingStopIsLongest` | crates/pi-agent-core/src/compaction/prepare.rs:35-57 | it does when no message on top of the budget or of another message leaves 32 bits |
| `Compaction.WrappedSumIsKept` | crates/pi-agent-core/src/compaction/prepare.rs:35-57 | two messages of images whose sum wraps around and that are both kept at a budget of a thousand |
| `Compaction.ConservesExactly` | crates/pi-agent-core/src/compaction/prepare.rs:42-46 | the halves hold every message if and only if the threshold is not passed or the last message is no tool result |
| `Compaction.ResultInNeitherHalf` | crates/pi-agent-core/src/compaction/prepare.rs:42-46 | a conversation whose last tool result is in neither half |
| `Compaction.OneLongest` | crates/pi-agent-core/src/compaction/prepare.rs:35-57 | there is one longest end within the budget |
| `Compaction.SplitAfterAnchor` | crates/pi-agent-core/src/agent_turn_flow/nodes.rs:1067-1084 | conserves all messages; what is kept never starts with a tool result, and past the anchor only tool results are given up |
| `Compaction.MaybeCompact` | crates/pi-agent-core/src/agent_turn_flow/nodes.rs:400-462 | which messages are summarized and kept, what replaces the conversation and what is reported; nothing happens exactly when compaction is off, the threshold is not passed, or there is nothing to summarize at the budget and no anchor |
| `Compaction.CompactedContinues` | crates/pi-agent-core/src/agent_turn_flow/nodes.rs:435-447 | after a compaction the summary comes first and every kept message follows as it was, but for an assistant's usage |
| `Compaction.ShouldCompactMeans` | crates/pi-agent-core/src/compaction/prepare.rs:10-19 | compaction is due exactly when it is on and the estimate and the reserve together no longer fit the window |
| `Compaction.CompactedEstimate` | crates/pi-agent-core/src/agent_turn_flow/nodes.rs:435-447 | after a compaction the estimate has no anchor and is the saturated sum of the summary and of what was kept |
| `Compaction.CompactionSettles` | crates/pi-agent-core/src/compaction/prepare.rs:10-19 | a compaction at the budget does not call for another one when the summary and the budget fit under the threshold |
| `CompactionPairs.BudgetStaysPaired` | crates/pi-agent-core/src/compaction/prepare.rs:42-57 | compaction at the budget keeps a paired conversation paired if and only if the conversation does not end with a result and the message where the budget parts it is none |
| `CompactionPairs.AnchorStaysPaired` | crates/pi-agent-core/src/agent_turn_flow/nodes.rs:1067-1084 | compaction behind the newest anchor keeps a paired conversation paired |
| `CompactionPairs.CallLosesAnswer` | crates/pi-agent-core/src/compaction/prepare.rs:42-46 | right after a tool turn, whatever is kept, the call in it has lost its answer |
| `CompactionPairs.AnswerLosesCall` | crates/pi-agent-core/src/compaction/prepare.rs:47-57 | a conversation that ends with the user, cut between a call and its answer |
| `Proxy.MessageState.EnsureContentLength` | crates/pi-agent-core/src/proxy.rs:423-430 | pads with empty text up to the index and keeps what is there |
| `Proxy.MessageState.Process` | crates/pi-agent-core/src/proxy.rs:264-421 | one event in place; an event that does not fit is refused and changes nothing |
| `Proxy.MessageState.ProcessAll` | crates/pi-agent-core/src/proxy.rs:225-241 | the stream fails if and only if some event does not fit, at the first such event, after showing every message before it |
| `Proxy.Isolated` | crates/pi-agent-core/src/proxy.rs:264-421 | the block at an index depends only on the events of that index since it last began, whatever is interleaved and whatever was there before |
| `Proxy.BlockIsOwn` | crates/pi-agent-core/src/proxy.rs:264-421 | the block is the one the index's own stream alone gives |
| `Proxy.AcceptedIsOwn` | crates/pi-agent-core/src/proxy.rs:264-421 | for every state and all events, the streams of all indices are accepted one by one if and only if their interleaving is accepted and every index is there from the start or begins first |
| `Proxy.PaddingIsAccepted` | crates/pi-agent-core/src/proxy.rs:423-430 | an interleaving that is accepted although the stream of index 0 alone is not |
| `Proxy.OwnBlock` | crates/pi-agent-core/src/proxy.rs:264-421 | the block at an open index is the one the stream of that index alone gives |
| `Proxy.UnbegunExactly` | crates/pi-agent-core/src/proxy.rs:423-430 | an event for an index that never began is accepted if and only if it is of the kind of the block that is there from the start, or there is none, it is text and a later index began |
| `Proxy.AcceptedExactly` | crates/pi-agent-core/src/proxy.rs:264-421 | events are accepted exactly when each delta and end is of the kind its index began with last, or, for an index that never began, fits what is there |
| `Proxy.EndingIsLast` | crates/pi-agent-core/src/proxy.rs:395-421 | stop reason and usage are those of the last event that ends the message |
| `Proxy.FailureIsLast` | crates/pi-agent-core/src/proxy.rs:395-421 | the error message is that of the last failure |
| `Proxy.Reassembled` | crates/pi-agent-core/src/proxy.rs:264-421 | text is the joined deltas and tool arguments are the parse of the joined JSON, inside any interleaving |
| `Proxy.CutsDoNotMatter` | crates/pi-agent-core/src/proxy.rs:264-421 | two ways to cut the same text into deltas give the same block |
| `Truncate.JoinSplit` | crates/pi-agent-core/src/truncate.rs:45-48 | joining the lines of a text gives the text back |
| `Truncate.SplitLines` | crates/pi-agent-core/src/truncate.rs:45-48 | no line holds a line break: the split is the finest |
| `Truncate.TruncateHead` | crates/pi-agent-core/src/truncate.rs:45-103 | the longest run of whole lines from the start within both limits, a prefix of the text; when and why it is cut |
| `Truncate.TakeHead` | crates/pi-agent-core/src/truncate.rs:71-85 | the loop stops at the longest run of lines and says which limit stopped it |
| `Truncate.TruncateTail` | crates/pi-agent-core/src/truncate.rs:105-157 | the longest run of whole lines from the end within both limits, or the longest run of characters of the last line; never over a limit; and which limit cut the text |
| `Truncate.TakeTail` | crates/pi-agent-core/src/truncate.rs:122-140 | the loop from the end, whole lines or a part of the last one |
| `Truncate.TailLinesAre` | crates/pi-agent-core/src/truncate.rs:105-112 | the lines looked at are the text, or the text without its last line break |
| `Truncate.TruncateFromEnd` | crates/pi-agent-core/src/truncate.rs:189-204 | the longest run of characters from the end within the bytes |
| `Fuzzy.GreedyIsAhead` | crates/pi-tui/src/fuzzy.rs:68-135 | the greedy scan puts every character no later than any placement does |
| `Fuzzy.GreedyDecides` | crates/pi-tui/src/fuzzy.rs:68-135 | the greedy scan finds the whole query if and only if it is a subsequence |
| `Fuzzy.TallyIsPlacement` | crates/pi-tui/src/fuzzy.rs:82-118 | the counters of the loop are the length, end, run and score of the leftmost placement |
| `Fuzzy.Score` | crates/pi-tui/src/fuzzy.rs:95-117 | what one match adds; the gap never underflows |
| `Fuzzy.MatchQuery` | crates/pi-tui/src/fuzzy.rs:68-135 | matches if and only if the query is a subsequence, with the score of the leftmost placement |
| `Fuzzy.SwapHasTwoParts` | crates/pi-tui/src/fuzzy.rs:141-176 | only letters followed by digits, or digits followed by letters, are swapped |
| `Fuzzy.TwoPartsSwap` | crates/pi-tui/src/fuzzy.rs:141-176 | every such query is swapped, between the two parts |
| `Fuzzy.SwappedTwice` | crates/pi-tui/src/fuzzy.rs:141-176 | swapping twice gives the query back |
| `Fuzzy.FuzzyMatchesExactly` | crates/pi-tui/src/fuzzy.rs:7-29 | a fuzzy match is a subsequence of the lowered text, as it is or swapped |
| `Fuzzy.WordsAreWords` | crates/pi-tui/src/fuzzy.rs:36-39 | the tokens are what is between the white space of the query: none is empty or holds a space, each is as long as it can be, and nothing is left out |
| `Fuzzy.FilterIndices` | crates/pi-tui/src/fuzzy.rs:31-66 | exactly the items all whose tokens match, none twice, by score and then by index |
| `FuzzyScores.ScoreCounts` | crates/pi-tui/src/fuzzy.rs:82-118 | the score in closed form: positions and skipped characters cost, word starts and pairs of matches within a run pay |
| `FuzzyScores.ExactIsBest` | crates/pi-tui/src/fuzzy.rs:82-135 | a text that is the query scores better than every other text that has it |
| `FuzzyScores.ExactReadsBest` | crates/pi-tui/src/fuzzy.rs:7-29 | the same with lowered letters and with the query the other way round |
| `FuzzyScores.ExactComesFirst` | crates/pi-tui/src/fuzzy.rs:31-66 | in a ranking for one word the items that read like it come before all others |
| `FuzzyScores.RankingMeans` | crates/pi-tui/src/fuzzy.rs:31-66 | an item is listed exactly when every token is found in it, as it is or the other way round; better sums come first and equal ones stay in order |
| `FuzzyScores.TotalAdds` | crates/pi-tui/src/fuzzy.rs:41-58 | the score of an item is the sum over its tokens |
| `JsonRepair.CloseIncomplete` | crates/pi-ai/src/util/json_repair.rs:67-99 | appends to the text only, to one that nests if and only if the text begins one that nests and does not break off behind a backslash in a string, and with the fewest characters |
| `JsonRepair.NestsExactly` | crates/pi-ai/src/util/json_repair.rs:67-99 | that, against a grammar of nesting: every bracket with its partner and every string with its end |
| `JsonRepair.BreaksOffExactly` | crates/pi-ai/src/util/json_repair.rs:67-83 | when a text breaks off right behind a backslash in a string, in terms of its characters |
| `JsonRepair.ClosesExactly` | crates/pi-ai/src/util/json_repair.rs:67-99 | the result is closed, and completing again changes nothing, if and only if the text does not end right behind a backslash in a string |
| `JsonRepair.BackslashSwallowsQuote` | crates/pi-ai/src/util/json_repair.rs:67-99 | a text that does |
| `JsonRepair.ShortestCompletion` | crates/pi-ai/src/util/json_repair.rs:67-99 | no shorter continuation closes the text |

## Left out

Renderer:

- Resizing on the inline surface, switching the surface during a run, `clear_on_shrink` set to false, overlays and Kitty images: reflow by a terminal is unspecified, and images are not text.
- Grapheme width and style codes: a line is a list of cells and of invisible control codes at positions; colours that outlive a line are not modelled.
- A terminal's wrapping at the right margin: `Margins.NothingPastMargin` shows that nothing is written there.
- The fields `hardware_cursor_col`, `cursor_row` and the redraw counters: nothing reads them for drawing.
- Rows are narrowed to 16 bits with wrap-around, as a release build does; a debug build would panic where a value does not fit.

Turn runtime:

- The length that a queued message is named after is read under a lock of its own; that another task may come in between shows only in the machine, where the ids of queued messages are arbitrary.
- Other tasks come in between two steps of a run, not in the middle of one.
- `TurnContext.TurnContext.PrepareProviderRequest`: how the request is built from the messages, and the override, are an input.
- `AgentRuns.RunKeepsInv`: the pairing of calls and results takes queues that hold user messages at the start, which is all `steer` and `follow_up` ever put there.
- `clear_queues` and the calls that drain a queue from outside are not among the steps of other tasks.
- `add_message`, `replace_messages` or a dropped stream during a run: the snapshot overwrites those.
- The checks of `Agent::run` before a run starts, `RunGuard`, the provider request override and the flags `should_finish` and `has_more_queued_input`, which no step reads.
- The unused nodes `decide_stop_or_tools` and `prepare_context`.
- Texts of errors are constructors, not strings; the older loop and the flow runtime use the same texts for the same cases.
- `Legacy.FlowMatchesLegacy`: without hooks, compaction, cancellation and enqueues during the run, and for tools that answer as functions of their call; with enqueues the two loops look at the queues at different moments.

Sessions and compaction:

- Decoding of stored messages: an entry holds its decoded message or none.
- The wording put around the two kinds of summary is a parameter.
- How an entry becomes a message, and the lists of files stored with a branch summary, are parameters of `BranchBudget.PrepareEntries`.
- The text of a branch summary and the request for it: formatting.
- Sums of tokens that leave 32 bits wrap around, as a release build does; a debug build would panic there.
- Arguments of a tool call are their JSON text, and the provider that writes a summary is a parameter.

Streams and text:

- Parsing and repairing JSON apart from completion: the parser is a parameter of `Proxy`.
- Reading server-sent events and the transport.
- `Fuzzy.Score`: scores are exact numbers of tenths, not floating-point numbers; lowering and white space are parameters.
- `format_size` and `truncate_line`: easy members.

Elsewhere: providers, authentication, command-line arguments, resources, themes, autocompletion, agent invocation and
team flows, the kill ring and the undo stack are not part of this model.
