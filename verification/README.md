# Verified model of an agent workflow engine

The repository runs agent workflows: a canvas of components is executed by a scheduler that keeps a
list of component ids, the *path*, and edits it while it runs. This project models that scheduler and
several smaller algorithms beside it, and proves what they guarantee.

The models, by file:

| file | models |
|---|---|
| `Values.dfy`, `LoopConditions.dfy`, `Operators.dfy` | dynamically typed values; the termination test of a loop, and what its operators mean |
| `Components.dfy` | components, containers and the control edges the configuration draws |
| `Scheduler.dfy`, `SchedulerLemmas.dfy` | one run of the engine, step by step, as functions on values |
| `Canvas.dfy` | the engine as the program has it: an object that edits path, queue and outputs in place, proved to compute those functions |
| `Runs.dfy`, `Accounting.dfy`, `Termination.dfy`, `Raising.dfy`, `Commuting.dfy` | properties of whole runs; when a run is left by an exception; when the order of a batch does not matter |
| `Threads.dfy`, `Entries.dfy`, `Nesting.dfy` | runs with nested iterations and loops end, by a condition on the configuration; a loop inside a loop meets it |
| `Outcomes.dfy`, `Posting.dfy`, `Handovers.dfy` | where a run starts, what survives in a batch, what post-processing does and how a round ends, each in terms of the configuration; over runs, nothing that is due is forgotten |
| `Reentry.dfy`, `Retrying.dfy`, `Boundaries.dfy` | runs that never end, and that they miss one demand only |
| `Collating.dfy`, `Unrolling.dfy`, `Iterations.dfy`, `Loops.dfy` | iterations and loops unroll exactly |
| `Weaving.dfy`, `Gathering.dfy` | the same order, pass counts and collected outputs while other components run at the same time |
| `Raptor.dfy` | recursive summarizing of chunks in layers |
| `McpSession.dfy`, `Once.dfy` | a tool-call session with its server loop; a run-once wrapper for threads |
| `MessageStream.dfy`, `SheetNames.dfy` | streaming a message template; naming the sheets of a workbook |
| `Markdown.dfy`, `Documents.dfy`, `WordWrap.dfy` | the block parser of the document generator, and that it reads back what is written; its word wrapper |
| `ReactHistory.dfy` | the message history of the agent's reasoning loop |

**How runs are modelled.** Component bodies, language models, stores and clocks are foreign. What they
answer is read from an oracle: the reply at position `i` of the path says how the execution there
turned out (error, raised exception, finished or streamed content, chosen route, written outputs, the
list or the condition values it read). A position is executed at most once in a run, so a statement
about all oracles is a statement about all behaviours. The bodies of iteration items and loop items
are not foreign; they are modelled exactly, counters and collected outputs included.
`Scheduler.Rounds` is the state after a number of passes of the outer loop, and `Canvas.Run` computes
it in place.

**What the code does, where that may surprise.**

- A pause for a form keeps only the pending part of the path; the executed part is dropped
  (`Runs.PauseKeepsOnlyPending`, `agent/canvas.py:628-642`).
- Resetting a run clears outputs but not item counters. An item that is entered again after it has
  ended starts over at -1: an iteration runs one pass more, with the *last* element first
  (`Iterations.ReenteredItemStartsOver`, `Weaving.IterationAmidOthers`), a loop one pass more than its
  maximum (`Weaving.LoopAmidOthers`). A loop that feeds itself therefore never ends although it allows
  no pass, and meets every other demand of termination (`Boundaries.EnteringAgainMayNeverEnd`).
- An iteration item whose list cannot be read, and whose handler answers the failure with a default,
  is tried again without end, because its counter does not move
  (`Retrying.HiddenFailureNeverEnds`, `Boundaries.HidingFailuresMayNeverEnd`). With any other
  handler, or none, that cannot happen (`Entries.ConfiguredRunsEnd`).
- A message that failed before it ever had content leaves the run by an exception, whatever its
  handler says, because its content is searched for citations first
  (`Raising.FailedMessageLeavesTheRun`, `agent/canvas.py:552-553`). A categorize or switch that failed
  before it chose a route does so too, unless its handler jumps: its own error is then lost
  (`Raising.FailedRouterLeavesTheRun`, `agent/canvas.py:612-613`).
- A loop condition on a boolean variable cannot use `is`, although there is a branch for it: the
  numeric branch comes first (`LoopConditions.BooleanOperators`).
- The error budget of the summarizer says that a failed cluster is skipped, but the assertion after a
  layer of three or more chunks raises on any failure (`Raptor.Builder.ClusterLayer`). A run that
  returns has had at most one failure, in a last layer of two chunks (`Raptor.Builder.Build`).
- Closing a session answers queued requests with a cancellation object, which is not an exception
  object for the test that follows: the caller gets it returned like a result
  (`McpSession.ClosingIsReturned`), and nobody else does (`McpSession.ClosingIsReturnedToTheDrained`).
  Closing also stops the event loop, so a notified caller has at most one more turn to see it.
- The run-once wrapper is documented to run the function exactly once and to cache its result. If the
  function raises it is not retried, and later calls return the initial result
  (`Once.RaisingIsNeverRetried`).
- The word wrapper counts one character too many on the first line of a paragraph
  (`WordWrap.FirstLineBreaksEarly`).

## Model

| member | source | states |
|---|---|---|
| LoopConditions.Results | agent/component/loopitem.py:128-142 | the condition list evaluates exactly when every entry is complete and evaluates, and then gives each entry's truth |
| LoopConditions.Decide | agent/component/loopitem.py:123-155 | the loop over the conditions: when `end` stops, goes on or raises, under `and` and `or` |
| LoopConditions.EmptyList | agent/component/loopitem.py:143-149 | with no condition `and` stops at once and `or` never stops |
| LoopConditions.BooleanOperators | agent/component/loopitem.py:67-93 | exactly which operators work on a boolean variable; the branch for booleans is dead |
| Operators.NumbersCompare | agent/component/loopitem.py:67-79 | a number compared with another one: each operator in terms of the difference |
| Operators.NumbersElse | agent/component/loopitem.py:67-83 | numbers are ordered only against numbers, equal nothing else, and are never empty; every other operator raises |
| Operators.BooleansCount | agent/component/loopitem.py:67-83 | a boolean counts as one or zero |
| Operators.StringsMatch | agent/component/loopitem.py:49-61 | containing, starting and ending with a text is being made up of it and something around it |
| Operators.StringsElse | agent/component/loopitem.py:49-65 | matching needs a text; every other operator raises |
| Operators.NegationsComplement | agent/component/loopitem.py:48-121 | each negated operator is the complement of the plain one and raises with it |
| Operators.ListsContain | agent/component/loopitem.py:101-105 | an empty list contains nothing, and a longer one what the shorter contains or what was added |
| Operators.OthersTest | agent/component/loopitem.py:95-121 | of a dictionary only its size matters, and nothing but `empty` holds of a missing variable |
| Operators.ChecksRaise | agent/component/loopitem.py:130-142 | when one entry of the list raises, and what it is otherwise |
| Operators.CountingLoopRuns | agent/component/loopitem.py:35-155 | a loop whose variable counts its passes and must reach k runs the smaller of its maximum and k passes |
| Components.StartIsFirst | agent/component/iteration.py:52-57 | the start of a container is the first matching component in dictionary order |
| Canvases.Canvas.GetStart | agent/component/loop.py:44-49 | the search loop finds that start |
| Canvases.Canvas.CreateTasks | agent/canvas.py:440-466 | deleting in place while scanning computes the greedy filter, and one task is created for each kept component in order |
| Canvases.Canvas.RunBatch | agent/canvas.py:422-469 | a batch keeps the executed path, filters the rest, and invokes each kept component |
| Canvases.Canvas.OutputCollation | agent/component/iterationitem.py:62-85 | the nested loops over components and output references, with their early exit when an output is no list |
| Canvases.Canvas.InvokeItem | agent/component/iterationitem.py:35-60 | one invocation of an iteration item: collation, end of list, element and index, counter |
| Canvases.Canvas.DrainPartials | agent/canvas.py:564-569 | reports the components at the front of the queue whose content is finished, up to the first unfinished one |
| Canvases.Canvas.ExtendPath | agent/canvas.py:593-606 | appends ids unless the path already ends with them |
| Canvases.Canvas.HandleError | agent/canvas.py:571-581 | goto, default value or fatal error |
| Canvases.Canvas.ReportFinished | agent/canvas.py:583-591 | reports a component or holds it back while its content is a stream |
| Canvases.Canvas.CheckEnd | agent/canvas.py:608-610 | when an item ends its container, and the report of the container |
| Canvases.Canvas.Move | agent/canvas.py:608-621 | where control goes after a component, for every class of component |
| Canvases.Canvas.PostProcess | agent/canvas.py:500-621 | the whole post-processing of one component; a message without content raises |
| Canvases.Canvas.EndRound | agent/canvas.py:623-661 | roll back after a fatal error (reported as finished only after a cancellation), pause for forms, go on, or finish |
| Canvases.Canvas.Run | agent/canvas.py:369-661 | the run, for any number of rounds, computes `Scheduler.Rounds` from the reset state |
| Runs.BatchIsGreedy | agent/canvas.py:440-466 | each pending component survives exactly when it is admitted after the survivors to its left, and survivors are never revised |
| Runs.KeptAreAdmitted | agent/canvas.py:446-459 | every survivor is admitted by what precedes it, and none is invented |
| Runs.ExecutedPrefixIsStable | agent/canvas.py:453-500 | once executed, positions of the path are never edited again, at any later round and at the end, except by a pause |
| Runs.EndOfRun | agent/canvas.py:623-643 | a failed run ends with exactly the path before the failing batch, a finished one with nothing pending |
| Runs.PauseKeepsOnlyPending | agent/canvas.py:628-642 | a pause leaves a permutation of the pending components, forms first, and drops the executed path |
| Runs.ProducersComeFirst | agent/canvas.py:451-455 | over a whole run, every executed component other than begin and forms has its producers earlier on the path, unless the path starts with a form |
| Runs.PostEdges | agent/canvas.py:571-621 | post-processing a component schedules only targets of its configured control edges |
| Runs.AlwaysJustified | agent/canvas.py:571-621 | every scheduled position is the target of a control edge from an earlier, executed position |
| Runs.ScheduledIsReachable | agent/canvas.py:487-626 | everything a run schedules is reachable over control edges from where it started |
| Outcomes.RunStarts | agent/canvas.py:376-412 | a run starts at a form the path ends with, and else at a `begin` added to it; outputs, errors and streams of the last run are gone, item counters are not |
| Outcomes.RunsForgetThePast | agent/canvas.py:368-414 | two pasts that agree on counters, on which routers ever chose and on the names of outputs give the same run |
| Outcomes.SurvivesExactly | agent/canvas.py:447-459 | a pending component survives exactly when it is a begin or a form, the path starts with a form, or its producers were executed or survive to its left |
| Outcomes.ForeignFailures | agent/component/base.py:407-419 | a raised exception is hidden behind its default, or is the error of the component; what the body did before stays |
| Outcomes.ItemFailures | agent/component/iterationitem.py:40-43 | a list that cannot be read leaves the counter, something else than a list ends the item, whatever becomes of the exception |
| Outcomes.RoundEnds | agent/canvas.py:623-660 | which of failure, pause, another round and finish follows a batch, exactly when, with path, events and outputs; the order of forms at a pause |
| Posting.PostMoves | agent/canvas.py:571-621 | after post-processing a component every goto target, or every target that is due, is on the path, in order, and nothing else was added |
| Posting.DueIsDetermined | agent/canvas.py:608-621 | there is only one list of targets that is due |
| Posting.PostTakesError | agent/canvas.py:571-581 | the error of the run afterwards: that of a component without goto targets and default, or the one before |
| Posting.PostReports | agent/canvas.py:564-609 | exactly what is reported, held back, and taken off the queue; after a message the queue is empty or begins with an unread stream |
| Posting.PostTouches | agent/canvas.py:491-609 | what becomes of the error, stream and counter of every component |
| Handovers.HandedIsScheduled | agent/canvas.py:487-621 | all that a component hands control to is on the path after its batch when the round goes on or finishes |
| Handovers.HandedIsKept | agent/canvas.py:447-621 | at every later round head, and when the run has finished, it is still there or was deleted by the batch filter |
| Handovers.SuccessorsFollow | agent/canvas.py:608-621 | over a whole run, all that the configuration sends control to after an executed component follows it, or was deleted |
| Handovers.MessageServesQueue | agent/canvas.py:564-569 | in a run, right after a message the queue is empty or begins with an unread stream |
| Handovers.NothingHeldBack | agent/canvas.py:564-591 | if a message finds every stream of the queue read and none is held back later, the queue stays empty and all that was executed has been reported |
| Accounting.PostBalances | agent/canvas.py:564-591 | processing one component keeps: processed components are the reported ones plus the queue, which is first in first out |
| Accounting.RoundBalances | agent/canvas.py:487-653 | so does a whole round, with start events equal to executed plus deleted components, and plus those still to be processed when the round is cancelled or raises |
| Accounting.EveryStartIsAccountedFor | agent/canvas.py:485-653 | accounting over every run, at every point where it can stop: finished, failed, paused, cancelled before a batch, or left by an exception inside one |
| Accounting.EnterIsBalanced | agent/canvas.py:483-486 | a run enters its loop with balanced books |
| Raising.PostRaisesExactly | agent/canvas.py:500-621 | post-processing raises exactly for a message whose stream raises or that has no content, a loop item whose test raises, and a router without a route that does not jump |
| Raising.FailedMessageLeavesTheRun | agent/canvas.py:552-553 | a message that failed before it had content leaves the run whatever its handler is |
| Raising.FailedRouterLeavesTheRun | agent/canvas.py:612-613 | a router that failed before it chose a route leaves the run exactly when its handler does not jump |
| Raising.RoundRaisesExactly | agent/canvas.py:487-648 | a round leaves the run by an exception exactly when a component of its batch raises, or nothing is left on the path |
| Commuting.InvocationsCommute | agent/canvas.py:433-469 | invocations of a batch may be exchanged if neither writes to the other or reads its stream, and both write different names of any third |
| Termination.RoundsAreBoundedByItems | agent/canvas.py:487-626 | if control cycles only through items, the number of rounds is bounded by the number of executed items times the number of ranks |
| Termination.AcyclicBatchesClimb | agent/canvas.py:487-626 | in an acyclic graph every component of the n-th batch has rank at least n |
| Termination.AcyclicRunsEnd | agent/canvas.py:487-626 | such a run ends within as many rounds as there are ranks |
| Termination.ItemRuns | agent/component/loopitem.py:35-46 | an item that is not entered again after its end runs at most one time more than its limit, for iterations and loops |
| Termination.RunsWithLoopsEnd | agent/canvas.py:487-626 | runs with iterations and loops end within an explicit number of rounds if no item is invoked again after its end |
| Threads.StraightIsSingleThread | agent/canvas.py:608-621 | a container with a straight-line body that is entered only through itself is a single thread |
| Threads.PostFeeds | agent/canvas.py:571-621 | post-processing schedules at most one of a set of components that is fed from a home, and none when it is done outside that home |
| Threads.PostLeaves | agent/canvas.py:571-621 | an item that has ended, or has failed without its handler hiding it, leaves its container or ends the run with its error |
| Threads.RoundOfThread | agent/canvas.py:487-626 | what one round does to the thread in a container and to the item's counter |
| Threads.ThreadThroughout | agent/canvas.py:487-626 | over a whole run the item of a single-threaded container is executed at most its limit and two times for each entry, whatever its counter was at first, as long as one component in or before the container is pending at a time |
| Threads.ThreadedRunsEnd | agent/canvas.py:487-626 | runs end within an explicit number of rounds if every container is a single thread, no iteration item hides its failures, and containers are entered only so often, one at a time |
| Entries.PaidThroughout | agent/canvas.py:571-621 | over a whole run a component of the tree is executed no more often than the component or container that leads to it |
| Entries.TreesAreLone | agent/canvas.py:571-621 | at every round head at most one component in or before a container is pending, also inside other containers |
| Entries.ExecutedAtMost | agent/canvas.py:571-621 | a component of the tree is executed at most as often as a power of the limit, with one factor for each item on the way |
| Entries.ConfiguredRunsEnd | agent/canvas.py:487-626 | termination from the configuration: ranks, single threads that may be nested, no hidden failures and a tree of entries, with lists and loop counts bounded, give an explicit bound on the rounds |
| Nesting.NestedIsConfigured | agent/canvas.py:608-621 | a loop inside a loop meets all of that |
| Nesting.NestedRunsEnd | agent/canvas.py:487-626 | so it ends, whatever its tests say and whatever its counters were |
| Reentry.SelfFeedingLoopNeverEnds | agent/component/loopitem.py:35-46 | a loop that is its own successor never ends, although it allows no pass |
| Retrying.HiddenFailureNeverEnds | agent/component/base.py:412-415 | an iteration with a straight-line body, whose item hides that its list cannot be read, never ends |
| Boundaries.EnteringAgainMayNeverEnd | agent/component/loopitem.py:35-46 | a run from its start that never ends and meets every demand of `ThreadedRunsEnd` but a bound on how often containers are entered |
| Boundaries.HidingFailuresMayNeverEnd | agent/component/base.py:567-581 | a run from its start that never ends and meets every demand of `ConfiguredRunsEnd` but that no item hides its failures |
| Boundaries.SamplesExist | agent/component/base.py:567-581 | there are configurations of both kinds |
| Collating.CollationAppendsEach | agent/component/iterationitem.py:62-85 | one collation appends to each served output exactly the current value of the component it refers to, and changes nothing else |
| Collating.AppendableExactly | agent/component/iterationitem.py:80-84 | to which outputs a value can be appended, and what comes of it |
| Collating.CollationRaisesExactly | agent/component/iterationitem.py:62-85 | a collation raises exactly when an output it serves is something that nothing can be appended to |
| Unrolling.BodyRun | agent/canvas.py:608-621 | a straight-line body is executed component by component and returns to the item |
| Unrolling.ItemPost | agent/canvas.py:608-621 | after an item control enters the body, leaves the container, or the run is left by an exception, by the verdict of `end` |
| Iterations.IterationPasses | agent/component/iterationitem.py:35-60 | after n passes the path has grown by exactly n copies of item and body, and n - 1 values per output are collected |
| Iterations.ElementsInOrder | agent/component/iterationitem.py:57-60 | pass n publishes element n and index n |
| Iterations.IterationUnrolls | agent/canvas.py:608-621 | the whole iteration: as many passes as the list is long, one item more, then the successors of the container, with one collected value per pass in order |
| Iterations.RunsStartBlank | agent/component/base.py:466-471 | the reset at run start leaves every collected output empty |
| Iterations.ReenteredItemStartsOver | agent/component/iterationitem.py:45-60 | what an iteration item does when it is entered again after its end |
| Loops.PassesIsMinimum | agent/component/loopitem.py:40-46 | the pass count is the minimum of the maximum count and the first count at which the test holds; it is unique |
| Loops.LoopRunsItsPasses | agent/component/loopitem.py:35-46 | the body is executed exactly that often, and then control leaves the loop |
| Loops.RaisingTestLeavesTheRun | agent/component/loopitem.py:130-149 | a condition that raises before that leaves the run by an exception |
| Loops.NoConditionsNoPass | agent/component/loopitem.py:143-155 | an empty condition list under `and` gives no pass |
| Weaving.WovenThroughout | agent/canvas.py:608-621 | whatever else runs at the same time, at every round head and when the run has finished, the members of a container have been executed in the order of the configuration, and each visit of the item decided to go on unless control has left |
| Weaving.EndedAmidOthers | agent/canvas.py:608-621 | when the item has ended, the members executed are n full passes and the item once more, by its decisions |
| Weaving.IterationAmidOthers | agent/component/iterationitem.py:35-60 | for an iteration that reads the same list at each of its visits, n is the length of the list, and one more after an earlier end |
| Weaving.LoopAmidOthers | agent/component/loopitem.py:35-46 | for a loop n is the smaller of its maximum, or one more after an earlier end, and the first pass count at which the test holds |
| Gathering.CollectsThroughout | agent/component/iterationitem.py:62-85 | if nobody else writes the outputs of an iteration, they hold at every round head what its visits gathered: the value a referred component has right before the item is executed |
| Gathering.CollectsAmidOthers | agent/component/iterationitem.py:35-85 | when the iteration has ended that is one value for each element of its list, in order |
| Raptor.EveryRowHasALabel | rag/raptor.py:191-193 | if clusters times threshold is below one and the row sums to one, the chunk gets a label |
| Raptor.EvenRowHasNoLabel | rag/raptor.py:191-193 | at or above one, the even row, which sums to one, gets none |
| Raptor.LabelsNeverLack | rag/raptor.py:191-193 | so if the largest number of clusters times the threshold is below one, no layer ever raises for a missing label |
| Raptor.ClustersPartition | rag/raptor.py:195-197 | each chunk of a layer belongs to exactly one cluster |
| Raptor.ClustersCoverTheLayer | rag/raptor.py:195-200 | the clusters together have as many members as the layer has chunks |
| Raptor.Builder.GetOptimalClusters | rag/raptor.py:99-110 | the first cluster count with the least criterion, below the limit and the layer size; raises exactly when there is none |
| Raptor.Builder.AssignLabels | rag/raptor.py:186-193 | the first label above the threshold for each chunk; raises exactly when a chunk has none |
| Raptor.Builder.CreateTasks | rag/raptor.py:195-200 | one summarizing task per cluster; raises exactly when a cluster is empty |
| Raptor.Builder.RunTasks | rag/raptor.py:119-162 | under every completion order: without failures the answers are appended in that order; appended summaries plus failures equal finished tasks; each task is asked for the texts of its cluster; it aborts exactly when the earlier failures and those of this layer reach the limit |
| Raptor.Builder.ClusterLayer | rag/raptor.py:179-211 | a layer of three or more chunks is summarized exactly when a cluster count exists, every chunk gets a label, every cluster is used and no cluster fails; it raises the first reason that applies; otherwise labels, prompts and summaries are those of its clusters, and there are strictly fewer of them |
| Raptor.Builder.Build | rag/raptor.py:112-218 | termination; exactly when and why it raises; the list begins with the usable chunks in their order, unchanged; every later layer is the answers to its tasks in the order in which they finished, each asked for the texts of the chunks with its label; the layers tile the list and shrink; the size bound; at most one tolerated failure |
| Raptor.EachChunkIsSummarizedOnce | rag/raptor.py:195-200 | every chunk below the last layer went into exactly one task of its layer |
| Raptor.BoundIsStaircase | rag/raptor.py:165-218 | the size bound is that of a full staircase of layers |
| McpSession.AlwaysInvariant | common/mcp_tool_call_conn.py:122-243 | over every interleaving: first in first out, one place per request, answers in order, callers get their own reply |
| McpSession.EachRequestOnce | common/mcp_tool_call_conn.py:122-175 | each request is in exactly one of queue, service, answered, dropped; no reply queue receives two replies |
| McpSession.ClosedStaysEmpty | common/mcp_tool_call_conn.py:160-175 | after closing, the queue stays empty and nothing is submitted |
| McpSession.ClosingRefuses | common/mcp_tool_call_conn.py:122-175 | closing refuses every later request and stops an idle loop |
| McpSession.ClosingAnswersTheQueue | common/mcp_tool_call_conn.py:227-243 | a request queued when the session closes gets exactly the closing notice |
| McpSession.ClosingGoesToTheDrained | common/mcp_tool_call_conn.py:227-243 | over every interleaving, a closing notice is on a reply queue exactly when closing drained that request, and is then all there is |
| McpSession.ClosingIsReturned | common/mcp_tool_call_conn.py:167-171 | that notice reaches the caller as a returned value, not as a raised one |
| McpSession.ClosingIsReturnedToTheDrained | common/mcp_tool_call_conn.py:167-171 | what a caller gets returned is the notice exactly when its request was drained |
| McpSession.EachReplyHasItsStep | common/mcp_tool_call_conn.py:143-158 | over every interleaving a reply queue holds nothing, the notice, or exactly the answer of the step that served this request |
| McpSession.CallersGetTheirAnswer | common/mcp_tool_call_conn.py:166-175 | what a caller gets other than the notice is the answer of the step that served its own request; errors are raised with their own message |
| McpSession.RequestsAreServed | common/mcp_tool_call_conn.py:122-175 | a request to an idle open session is taken, answered and received |
| McpSession.TimeoutsAreFinal | common/mcp_tool_call_conn.py:166-175 | a caller that timed out never gets an answer |
| McpSession.InterruptLosesTheRequest | common/mcp_tool_call_conn.py:143-158 | a request in service when the loop is cancelled is never answered |
| McpSession.Session.Enqueue | common/mcp_tool_call_conn.py:160-165 | submitting computes the step and is refused when closed |
| McpSession.Session.Process | common/mcp_tool_call_conn.py:122-158 | one pass of the server loop computes its steps and keeps the invariant |
| McpSession.Session.Close | common/mcp_tool_call_conn.py:227-243 | the draining loop computes the closing step and keeps the invariant |
| Once.AlwaysInvariant | common/misc_utils.py:94-104 | the invariant of flag, lock, result and threads over every interleaving |
| Once.StartsAtMostOnce | common/misc_utils.py:94-104 | the function starts at most once and one thread at a time is in the critical section |
| Once.ReturnsAgree | common/misc_utils.py:94-104 | all returning calls, now and later, give the result of the one execution |
| Once.RaisingIsNeverRetried | common/misc_utils.py:99-103 | after a raise there is no second start and every return gives the initial result |
| Once.OutcomeHasItsStep | common/misc_utils.py:94-104 | the outcome is that of the step in which the function ended, and no other step can end it |
| Once.ReturnsItsValue | common/misc_utils.py:94-104 | every returning call gives the value with which the function ended |
| Once.FirstCallRuns | common/misc_utils.py:94-104 | an undisturbed first call runs the function and gives its value |
| Once.LaterCallsDoNot | common/misc_utils.py:94-104 | a later one does not, and gives the same value |
| MessageStream.StreamPieces | agent/component/message.py:109-169 | the pieces streamed add up to the stored content, which is the rendered template, despite the cache; when a variable is missing or the stream is told to stop, they are the beginning of it |
| MessageStream.RenderAtOnce | agent/canvas.py:164-189 | the batch form succeeds exactly on readable, encodable variables and gives the rendered template |
| MessageStream.RenderBothWays | agent/component/message.py:109-169 | streaming refines the batch form: whenever the latter succeeds and nothing stops the stream both agree |
| MessageStream.RenderedOneMore | agent/canvas.py:164-189 | a text without references is rendered as it is, and one more reference replaces only what it covers |
| SheetNames.CandidatesDiffer | agent/component/message.py:379-382 | candidate names are injective in the counter |
| SheetNames.CandidateKeepsTheTitle | agent/component/message.py:380-381 | a candidate keeps the whole title, or as much of it as the width leaves |
| SheetNames.FreeName | agent/component/message.py:376-383 | the search ends, by pigeonhole, with the title or the first free candidate |
| SheetNames.NameSheets | agent/component/message.py:374-384 | all sheet names are distinct, each the title or the first free candidate after the earlier ones |
| SheetNames.CandidateFitsExactly | agent/component/message.py:380-381 | a candidate has at most 31 characters exactly for counters below ten to the thirtieth |
| SheetNames.NamesFit | agent/component/message.py:374-384 | for fewer titles than that, all of which fit, every name fits |
| Markdown.Parse | agent/component/docs_generator.py:704-819 | termination; the blocks are non-empty consecutive intervals that cover all lines, each of the kind its first line decides and as long as that kind allows |
| Markdown.NextBlock | agent/component/docs_generator.py:710-817 | one pass takes exactly one such block, also when a single table row is taken back |
| Markdown.ParseIsUnique | agent/component/docs_generator.py:704-819 | there is only one way to cut lines into such blocks |
| Markdown.SpaceAround | agent/component/docs_generator.py:711 | white space around a line is taken off and nothing else |
| Documents.DocumentsAreParsedBack | agent/component/docs_generator.py:704-819 | round trip: headings, rules, lists, tables, code and paragraphs, written one after the other with empty lines between, are parsed back as exactly these blocks |
| WordWrap.Wrap | agent/component/docs_generator.py:1081-1096 | the words are kept in order; the lines are the greedy ones; each has at most 100 characters or is one word |
| WordWrap.WrapIsUnique | agent/component/docs_generator.py:1086-1093 | there is only one such way to wrap |
| WordWrap.LineIsItsWords | agent/component/docs_generator.py:1088 | a line cut at its blanks is the words it was joined from |
| WordWrap.BreakIsNeeded | agent/component/docs_generator.py:1087-1093 | a line breaks exactly when the next word does not fit, or would fill a first line to the last character |
| WordWrap.FirstLineBreaksEarly | agent/component/docs_generator.py:1093 | that one character does make a first line break early |
| ReactHistory.WindowIsConversation | agent/component/agent_with_tools.py:334-336 | the window on a long history alternates roles, ends with the user, keeps the first request, and repeats nothing |
| ReactHistory.WindowNeedsParity | agent/component/agent_with_tools.py:334-336 | it alternates exactly when the history ends with the user |
| ReactHistory.AppendingKeeps | agent/component/agent_with_tools.py:370-374 | adding to the user's words keeps a conversation, and so does the copy given to the next-step call |
| ReactHistory.AppendingAdds | agent/component/agent_with_tools.py:370-374 | the user's earlier words are kept, the new ones follow them, and no other message changes |
| ReactHistory.Agent.Round | agent/component/agent_with_tools.py:379-415 | one pass of the loop adds exactly the response and what the user is told about it, for each way a response can turn out |
| ReactHistory.Agent.React | agent/component/agent_with_tools.py:370-435 | every list given to the model is well addressed; the history records every response in order, each next-step call was given all that came before it, and there are at most max_rounds + 1 of them |

## Left out

- Component bodies other than the items, language models, embeddings, clustering, text to speech, storage, cancellation inside component bodies: foreign, read from oracles.
- Exceptions while the inputs of a batch are gathered (a variable that does not exist): they leave the run before anything of the batch is recorded.
- The texts of exceptions that the language itself raises (an index out of range, appending to something else than a list): stand-ins.
- Event payloads, timing, logging and the message events of a stream: only started, finished and end-of-run events are modelled.
- Resuming after a form: the pause is modelled as an end of the run.
- Canvases.Canvas.Run: watches a limited number of rounds, because runs need not end; `Entries` says when they do. The outputs that a webhook call sets between reset and first round are not modelled.
- Canvases.Canvas.RunBatch: invokes the components of a batch one after the other in path order; `Commuting` says when the order does not matter for components with foreign bodies.
- Canvases.Canvas.InvokeItem: does not model that the item itself polls for cancellation.
- Entries.ConfiguredRunsEnd: reaches containers along a tree of control edges; nothing is said of a container on the way to which branches join.
- Iterations.IterationUnrolls: for straight-line bodies with nothing else pending at the same time; `Weaving` and `Gathering` give order, pass counts and collected outputs without that.
- Loops.LoopRunsItsPasses: as above.
- Values: numbers are exact reals, and a dictionary is known only by its size and an identity.
- Raptor.Builder.Build: says which texts a task is asked to summarize, not how they are shortened and put into the prompt; does not model cancellation or the time limit of summarizing tasks, and the tasks of an aborted layer stop at the abort.
- Tool-call sessions: closing from another thread than the session's own event loop, the transport, stopping the event loop and its threads at the end of `close`, and the time limits of `get_tools` and `tool_call`.
- MessageStream.StreamPieces: the regular expression that finds references is foreign; its matches are given in order and without overlap.
- SheetNames.NameSheets: how titles are taken from the text, and the rules of the workbook format on characters and case.
- Markdown.Parse: formatting inside a block, and white space and digits outside Latin-1.
- Reasoning loop: citations, tool calls, token counts and how a next-step call words its prompt.
- Setting nested variables, templates in the second syntax, PDF, DOCX and Excel generation, the web front end, routes and services.
