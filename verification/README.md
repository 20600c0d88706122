# Verification of the agent core

A Dafny model of the logic at the heart of the IronClaw agent, with proofs that hold for every
input, every run or every interleaving. `dafny verify dfyconfig.toml` checks the whole project.

| component | modules |
|---|---|
| cost guard: budget flag, sliding hour, usage counters, shared by k callers | `CostGuards`, `CostGuardRuns`, `CostGuardSpend`, `CostGuardTight`, `CostGuardChecks` |
| threads printed as chat messages and parsed back, previews, call ids | `Threads`, `ThreadRoundTrip`, `ThreadPrinting`, `Preview`, `CallIds`, `Chat`, `Lists` |
| context compaction and its token accounts | `Compaction` |
| tool-call protocol: batches, approvals, thread record, retry compaction, loop limits, chat runs, whole conversations | `ToolExecution`, `ToolBatches`, `ToolAnswers`, `RetryCompaction`, `AgenticLoop`, `ChatRuns`, `ChatRequests`, `Conversations` |
| session manager: sequential runs and interleaved lock sections | `SessionManagers`, `SessionRuns`, `SessionRaces`, `SessionAdoptions`, `SessionTraces`, `SessionPruning`, `UndoPruning` |
| settings trees: layering, dotted paths, database round trip | `Jsons`, `SettingsMerge`, `SettingsPaths`, `SettingsTrees`, `SettingsWrites`, `SettingsRoundTrip`, `SettingsTypes` |
| `.env` upserts | `EnvFiles`, `EnvFileLaws` |
| UTF-8 truncation | `Utf8` |
| scheduler capacity | `Schedulers`, `SchedulerRuns` |

## How it is modelled

Objects that update their fields (`CostGuard`, `Thread`, `ChatDelegate`, `SessionManager`,
`Settings`, `EnvFile`, `EventBuffer`, `Scheduler`) are classes. Each method is proved equal to a
specification function of the old state, and the theorems are about those functions. Where
callers overlap, every lock section is one atomic step of a state machine, and a run is any
sequence of such steps. LLM, tools, hooks, clocks, the file system and fresh ids are arbitrary
parameters. Money and token prices are exact reals, time is a natural number that never goes
back, and a string is a sequence of Unicode scalar values.

JSON text and number parsing appear as functions with stated laws (`SettingsRoundTrip.Lawful`):
no text is the JSON text of itself as a string, and the number parsers invert the printing of
their own kind. Where a value has to read back from its text, that is asked of the leaves of the
saved tree only (`LeavesReadBack`). Floats are their bits. The settings struct appears as a
function that decodes or refuses a tree. The round trip asks of it that it decodes field by field
what a load of the saved tree may write (`SettingsRoundTrip.Fieldwise`), and `SettingsTypes`
proves this of every struct built of the kinds of fields that the settings have.

## Where the code falls short of its documentation or its intent

The code is modelled as it is. Where a property fails, a theorem gives the exact condition under
which it holds, for all inputs or for every step of every run.

- The daily counter is documented to reset at midnight, but only a record resets it: a guard that
  has reached its limit opens again only for calls that are already past the budget check
  (`CostGuardSpend.ReopensExactlyWhen`).
- Whole cents above 2^64 read as 0 (`CostGuardSpend.BudgetRefusesExactlyWhen`,
  `CostGuardSpend.FlagFastPathIsExact`).
- A truncated preview may be truncated again, so printing a restored thread need not give the
  same messages; two rounds always suffice (`Preview.TruncateTwice`,
  `ThreadRoundTrip.PrintParsePrint`, `ThreadRoundTrip.ReprintStabilizes`).
- The thread record keeps the outcomes of a batch on its last entry only
  (`ToolBatches.RecordIsFaithful`).
- An auth prompt returns before a pending approval is reported and leaves those calls without
  answers (`ToolBatches.BatchProtocol`). In an approval round it drops the approved call's answer
  and every deferred call, or ends a turn whose conversation is complete
  (`ToolBatches.ApprovalRoundsComplete`, `ToolBatches.PromptsEndTheTurn`).
- The retry compaction adds its note even when it drops nothing, and can lengthen the list
  (`RetryCompaction.ShorterExactlyWhen`).
- Two overlapping resolutions of a new key make two threads, and an adoption inside a creation
  makes two keys share one, although the adoption checks twice (`SessionTraces.OverlapMakesTwo`,
  `SessionAdoptions.SharesExactlyWhen`).
- A prune that overlaps a resolution leaves a mapping without a session and a thread that the
  next resolution does not find (`SessionPruning.StraysExactlyWhen`,
  `SessionPruning.OvertakenThreadIsLost`), and one that overlaps a registration drops the undo
  manager of a thread in use (`UndoPruning.ReturningThreadLosesUndo`).
- Saved settings do not all load back: a JSON-looking string over null comes back as another
  value or unset (`SettingsTypes.NumericUserIsUnset`), an optional section such as
  `transcription` always comes back unset, and resetting an optional string writes the text of
  null (`SettingsRoundTrip.RoundTrip`, `SettingsRoundTrip.JsonLookingStringIsLost`,
  `SettingsRoundTrip.ObjectOverLeafIsLost`, `SettingsRoundTrip.ResetIsExact`).
- A configuration file cannot set a value back to its default (`SettingsMerge.TopLayerDecides`).
- The single upsert takes an unreadable file for an empty one (`EnvFiles.EnvFile.UpsertVar`), and
  it disagrees with the batch about keys with spaces around them
  (`EnvFileLaws.SingleBindsExactlyWhen`, `EnvFileLaws.BatchAgreesWithEach`).
- A cleanup task can remove the entry of a job scheduled again, and a dropped stop leaves its
  worker running; then more workers run than the limit (`SchedulerRuns.LostExactlyWhen`,
  `SchedulerRuns.RescheduleInTheGap`, `SchedulerRuns.DroppedStopLoses`).

## Model

| member | source | states |
|---|---|---|
| `CostGuardRuns.HourlyLimitHolds` | src/agent/cost_guard.rs:107-151 | in every run with at most k calls in flight, every closed one-hour window holds at most limit + k - 1 recorded actions (the limit itself for one caller) |
| `CostGuardRuns.HourlyLimitIsTight` | src/agent/cost_guard.rs:131-148 | for every limit and every k some run does put limit + k - 1 actions into one hour, so the bound is the best one |
| `CostGuardRuns.DrainCovers` | src/agent/cost_guard.rs:131-148 | what a rate check counts after draining covers every recorded action of every window that is still open |
| `CostGuardRuns.DrainKeepsWindow` | src/agent/cost_guard.rs:131-148 | draining keeps the deque a suffix of the sorted log that misses only expired times |
| `CostGuardRuns.DrainIsExact` | src/agent/cost_guard.rs:131-141 | draining a sorted deque drops exactly the times that have expired |
| `CostGuards.DrainIsCut` | src/agent/cost_guard.rs:131-141 | a drain takes exactly what is older than 3600 seconds off the front, for any deque |
| `CostGuardChecks.WindowIsLastHour` | src/agent/cost_guard.rs:131-148 | in every run, after a rate check under a limit and after an observation, the deque is exactly the recorded actions of the last 3600 seconds, and its length their count |
| `CostGuardChecks.RatePassesExactlyWhen` | src/agent/cost_guard.rs:131-148 | a caller passes the rate check exactly when fewer actions than the limit were recorded in the last 3600 seconds, whatever others are doing |
| `CostGuardChecks.BudgetPassesExactlyWhen` | src/agent/cost_guard.rs:118-129 | a caller passes the budget check exactly when the whole cents recorded for the guard's day are below the limit |
| `CostGuardChecks.CheckIsExact` | src/agent/cost_guard.rs:107-151 | in every run the answer of an uninterrupted check, over the logs of costs and actions: which refusal, with which numbers, and the flag afterwards |
| `CostGuardSpend.DailyLimitHolds` | src/agent/cost_guard.rs:118-129 | with at most k calls in flight of at most m each, every day's recorded spend stays below limit_cents/100 + k m, also when calls cross midnight, as long as that fits 2^64 cents |
| `CostGuardTight.DailyLimitIsTight` | src/agent/cost_guard.rs:118-129 | for every limit, k, m and sum below the limit some run spends that sum plus k m on one day, so no smaller bound holds |
| `CostGuardSpend.BudgetRefusesExactlyWhen` | src/agent/cost_guard.rs:281-284 | a spend that has reached the limit is refused exactly while it fits 2^64 cents |
| `CostGuardSpend.HugeSpendIsNotRefused` | src/agent/cost_guard.rs:281-284 | beyond 2^64 cents the amount reads as 0: a first record of a day above it raises no flag and the next check lets calls through |
| `CostGuardSpend.FlagFastPathIsExact` | src/agent/cost_guard.rs:107-129 | in every reachable state a set flag means a limit is set and reached; the flag path answers as the check without the flag, numbers included, exactly when the flag is down, the total fits 2^64 cents or the limit is 0 |
| `CostGuardSpend.FlagAfterRecord` | src/agent/cost_guard.rs:197-231 | after every record under a limit the flag says whether the day's whole cents have reached the limit exactly when it is down, or the total fits 2^64 cents, or the limit is 0 |
| `CostGuardSpend.ReopensExactlyWhen` | src/agent/cost_guard.rs:201-206 | once the limit is reached, and whatever days pass, some run records another cost exactly when some call is past its checks, or past the budget check with a rate check that can still let it through |
| `CostGuardSpend.BlockedForever` | src/agent/cost_guard.rs:201-206 | when the limit is reached and no call is past the budget check, no cost and no action is recorded again in any run |
| `CostGuardSpend.ReportedSpendIsExact` | src/agent/cost_guard.rs:252-260 | the reported daily spend is at every moment the sum of the costs recorded today |
| `CostGuards.CostGuard.DailySpend` | src/agent/cost_guard.rs:252-260 | reads the reported spend: zero when the stored total is of another day |
| `CostGuardSpend.UsageIsConserved` | src/agent/cost_guard.rs:239-249 | cost, input and output logged for a model equal its counters plus what calls in flight hold plus what cancelled calls took with them |
| `CostGuards.CallCostBounded` | src/agent/cost_guard.rs:176-195 | where prices charge nothing below zero, no call costs more than the price of the largest token counts: the bound m of the whole-run results |
| `CostGuards.NeverNegativeExactlyWhen` | src/agent/cost_guard.rs:176-195 | no token counts are ever charged below zero exactly when both rates are not negative and, where input has a price, neither are the read discount and the write multiplier |
| `CostGuards.TokensAreChargedOnce` | src/agent/cost_guard.rs:176-195 | with at most as many cached tokens as input tokens, the price is the sum of those of the uncached, read, written and output tokens each alone |
| `CostGuards.ExcessInputIsFree` | src/agent/cost_guard.rs:178-179 | with more cached tokens than input tokens the input does not matter |
| `CostGuards.KindsHaveTheirPrice` | src/agent/cost_guard.rs:176-195 | what n tokens of one kind cost: the rate, divided by the discount or times the write factor for cached ones; no discount when it is zero |
| `CostGuards.ToCents` | src/agent/cost_guard.rs:281-284 | whole cents, rounded down, exact to one cent below 2^64 |
| `CostGuards.CostGuard.CheckAllowed` | src/agent/cost_guard.rs:107-151 | state and verdict of the uninterrupted check, flag path first, then budget, then drained window |
| `CostGuards.CostGuard.RecordLlmCall` | src/agent/cost_guard.rs:165-249 | the price charged, the day reset, the flag, the new action time and the model's counters |
| `CostGuards.CostGuard.DrainExpired` | src/agent/cost_guard.rs:131-141 | pops exactly the expired times from the front, nothing in the clock's first hour |
| `CostGuards.CostGuard.ActionsThisHour` | src/agent/cost_guard.rs:263-272 | drains and counts |
| `ThreadRoundTrip.EveryThreadPrintsWellFormed` | src/agent/session.rs:331-383 | after any sequence of mutations, restores of arbitrary lists included, turn numbers are positions, the printed messages obey the tool-call protocol, and no two results share an id |
| `ThreadRoundTrip.ParsePrinted` | src/agent/session.rs:405-472 | parsing a printed thread gives back every turn's input, response and calls with names, parameters and printed contents |
| `ThreadRoundTrip.PrintParsePrint` | src/agent/session.rs:331-472 | printing after parsing a printed thread is the identity exactly when every tool text that is cut is cut cleanly |
| `ThreadRoundTrip.ReprintIdempotent` | src/agent/session.rs:331-472 | for any message list, parsing and printing twice equals once exactly under the same condition |
| `ThreadRoundTrip.ReprintStabilizes` | src/agent/session.rs:331-472 | for any message list two rounds reach the normal form |
| `ThreadRoundTrip.RoundTripCanChange` | src/agent/session.rs:359-376 | one call whose result straddles the cut is changed by the round trip |
| `ThreadRoundTrip.NumbersAreKept` | src/agent/session.rs:248-256 | turn numbers stay positions under every sequence of mutations |
| `ThreadRoundTrip.PrintedIds` | src/agent/session.rs:331-383 | printed call ids are pairwise distinct between calls and belong to turns of the given numbers |
| `ThreadRoundTrip.PrintedProtocol` | src/agent/session.rs:331-383 | every printed list obeys the protocol, whatever the turn numbers |
| `ThreadRoundTrip.FillAt` | src/agent/session.rs:433-449 | tool messages fill results position by position from the round's first call on; surplus ones are dropped |
| `ThreadPrinting.PrintTellsEveryTurn` | src/agent/session.rs:331-383 | the printed thread is, turn by turn, the input, one declaration of all calls with ids, names and parameters, one answer a call under the same id that says its outcome, and the response; and nothing else |
| `ThreadPrinting.ContentSaysOutcome` | src/agent/session.rs:359-376 | a call prints its error, also beside a result; without one its result; as it is within 1000 bytes, else the longest prefix within them and what follows a cut; OK for neither |
| `ThreadPrinting.OkExactlyWhen` | src/agent/session.rs:359-376 | OK is printed exactly when there is neither an error nor a result, or that text is OK |
| `ThreadPrinting.OperationsWriteTheLastTurn` | src/agent/session.rs:248-314 | a start appends an open turn; every other operation on a turn leaves the stated last turn and all others as they were |
| `ThreadRoundTrip.EveryInputBecomesATurn` | src/agent/session.rs:405-472 | every user message of any list becomes one turn, in order, and nothing else does |
| `ThreadRoundTrip.RoundIsParsed` | src/agent/session.rs:416-449 | a round of any list adds its calls with their own results in order, whatever rounds came before; calls without a result keep none |
| `ThreadRoundTrip.TurnIsParsed` | src/agent/session.rs:414-463 | the turn of a user message: number, input, calls of its rounds, and the response exactly when the assistant's text follows them |
| `CallIds.CallIdInjective` | src/agent/session.rs:343-361 | turn{n}_{i} determines n and i |
| `CallIds.CallIdReads` | src/agent/session.rs:343-345 | an id is turn, the turn's number, a separator and the call's number, in decimal without leading zeros |
| `Preview.TruncateTwice` | src/channels/web/util.rs:10-27 | a second truncation changes nothing exactly on clean cuts: within budget, cut at the budget, or filled up to it by the dots of an untagged string |
| `Preview.TruncateThrice` | src/channels/web/util.rs:10-27 | two truncations are always enough |
| `Preview.TruncateIsNotIdempotent` | src/channels/web/util.rs:10-27 | a cut at 998 of 1000 bytes is cut again |
| `Preview.FloorIsLongest` | src/channels/web/util.rs:10-20 | the cut is a prefix of whole characters within the budget and at most three bytes short of it |
| `ThreadPrinting.TruncatedShows` | src/channels/web/util.rs:10-27 | a truncated text is the text within the budget, else its longest prefix of whole characters within it, dots, and the closing tag when it starts as tool output |
| `Threads.Thread.StartTurn` | src/agent/session.rs:248-256 | appends a turn numbered by its position |
| `Threads.Thread.CompleteTurn` | src/agent/session.rs:259-265 | completes the last turn only; an empty thread only becomes idle |
| `Threads.Thread.FailTurn` | src/agent/session.rs:268-274 | fails the last turn only |
| `Threads.Thread.Interrupt` | src/agent/session.rs:308-314 | interrupts the last turn only |
| `Threads.Thread.RecordToolCall` | src/agent/session.rs:555-562 | appends a call without outcome to the last turn |
| `Threads.Thread.RecordToolResult` | src/agent/session.rs:565-569 | writes the last call of the last turn |
| `Threads.Thread.RecordToolError` | src/agent/session.rs:572-576 | writes the last call of the last turn |
| `Threads.Thread.TruncateTurns` | src/agent/session.rs:386-395 | keeps the last turns and renumbers them from 0 when there are more |
| `Threads.Thread.Messages` | src/agent/session.rs:331-383 | the printed form: user message, declared calls with their results, response |
| `Threads.Thread.RestoreFromMessages` | src/agent/session.rs:405-472 | the parse of any message list, well formed or not |
| `Threads.Thread.ConsumeTurn` | src/agent/session.rs:414-463 | one turn of the parse and where it ends |
| `Threads.Thread.ConsumeResults` | src/agent/session.rs:433-449 | fills the results of one round and stops at the first message that is no tool result |
| `ToolExecution.ChatDelegate.ExecuteToolCalls` | src/agent/dispatcher.rs:417-876 | for any order in which the tasks finish and any panics among several: the appended tool messages are those of the run one call at a time, and the batch splits exactly into answered calls, the pending call and the deferred calls, unless an auth prompt returns first |
| `ToolExecution.AnswersInOrder` | src/agent/dispatcher.rs:693-850 | one tool message per preflighted call, in order, with that call's id and name |
| `ToolAnswers.BatchTells` | src/agent/dispatcher.rs:693-850 | the messages a batch leaves: one declaration of all calls, then an answer for each call before the one that waits, with its id and name, and the hook's message, the sanitized and wrapped output, or a text that names tool and error, the filled-in one for a broken task |
| `ToolAnswers.RecordTells` | src/agent/dispatcher.rs:417-463 | what the thread records: every call with its redacted arguments, and the same text as a result exactly when the tool ended well, else as an error |
| `ToolAnswers.UnwindsExactlyWhen` | src/agent/dispatcher.rs:567-606 | a batch unwinds exactly when one single call may run before the one that waits and its task panics |
| `ToolAnswers.FirstPromptWins` | src/agent/dispatcher.rs:693-850 | the auth prompt of a batch is that of its first executed call that asks, and there is none exactly when none asks |
| `ToolAnswers.SuspensionTells` | src/agent/dispatcher.rs:852-876 | the waiting call keeps id and name and has the arguments its hook decided; all later calls are deferred as they are |
| `ToolExecution.ApprovalAt` | src/agent/dispatcher.rs:480-565 | the batch stops at the first call that passes its hook and needs approval |
| `ToolExecution.ChatDelegate.Preflight` | src/agent/dispatcher.rs:480-565 | finds the stopping point and the calls that may run before it |
| `ToolExecution.ChatDelegate.RunParallel` | src/agent/dispatcher.rs:608-672 | results land in their calls' slots whatever the order; panicked tasks leave theirs empty |
| `ToolExecution.ChatDelegate.FillFailed` | src/agent/dispatcher.rs:674-687 | every empty slot of a runnable call gets the fill-in error |
| `ToolExecution.ChatDelegate.PostFlight` | src/agent/dispatcher.rs:693-850 | answers and records in the original order, first auth prompt wins |
| `ToolBatches.BatchProtocol` | src/agent/dispatcher.rs:417-876 | the messages a batch leaves, whatever its outcome, keep a well-formed conversation well formed exactly when no call of it waits for approval and no lone call panics; so an auth prompt can leave unanswered calls behind |
| `ToolBatches.ApprovalRoundsComplete` | src/agent/thread_ops.rs:767-1195 | a suspended batch through any number of decisions: the conversation ends well formed exactly when the last decision answers every call that was left, and the loop goes on exactly when, besides, no replayed call asks for authentication; no batch takes more decisions than it has unanswered calls |
| `ToolBatches.DecisionAnswers` | src/agent/thread_ops.rs:876-1195 | the conversation only grows; it grows exactly when the approved tool ran and asked for no authentication, and holds an answer to every call exactly when, besides, no deferred one waits or panics alone |
| `ToolBatches.DecisionSplits` | src/agent/thread_ops.rs:848-1195 | whatever is decided, nothing is lost, repeated or reordered: answers to the first calls, then the pending call, then the deferred ones |
| `ToolBatches.PromptsEndTheTurn` | src/agent/thread_ops.rs:876-1149 | a turn ends on a prompt without a new message exactly when the approved tool asks, with new ones exactly when a deferred one asks, and leaves a well-formed conversation exactly in the second case with none waiting |
| `ToolBatches.ProcessApproval` | src/agent/thread_ops.rs:767-1195 | the state after a decision, with failed tools worded as on the approval path: ended by refusal, prompt or panic, waiting for the next approval, or ready to go on |
| `ToolBatches.ReplayDeferred` | src/agent/thread_ops.rs:1081-1145 | answers of the replayed calls in their order and the first prompt among them |
| `ToolAnswers.DecisionReports` | src/agent/thread_ops.rs:852-905 | the approved call's answer comes first, with its id and name and the wrapped output or the error as the approval path words it |
| `ToolAnswers.DecisionReportsDeferred` | src/agent/thread_ops.rs:1081-1143 | then those of the deferred calls before the next one that waits, each with its outcome; none when a lone one panics |
| `ToolAnswers.ReplayPromptWins` | src/agent/thread_ops.rs:1125-1141 | the prompt of a replay is that of its first call that asks |
| `ToolAnswers.DecisionOutcome` | src/agent/thread_ops.rs:767-1195 | which end a refusal, a panic and a prompt give, and which call waits next with which deferred ones |
| `ToolBatches.BatchRecorded` | src/agent/dispatcher.rs:443-462 | the thread keeps all calls of a batch but every outcome on the last entry only |
| `ToolBatches.RecordIsFaithful` | src/agent/session.rs:565-576 | every answered call's entry carries its own outcome exactly when the batch is one call or nothing was answered |
| `RetryCompaction.CompactMessagesForRetry` | src/agent/dispatcher.rs:951-995 | the compacted list: systems before the last user message, a note unless that comes first, then everything from it on; without a user message systems, then the rest |
| `RetryCompaction.KeepsSystemsAndSuffix` | src/agent/dispatcher.rs:951-995 | every system message once and in order with at most one note, and the suffix from the last user message unchanged |
| `RetryCompaction.KeepsOthersFromLastUser` | src/agent/dispatcher.rs:951-996 | of the other messages exactly those from the last user message on are kept, in order, and all without a user message |
| `RetryCompaction.ShorterExactlyWhen` | src/agent/dispatcher.rs:951-995 | shorter exactly when two or more other messages precede the last user message, longer exactly when none does and something precedes it |
| `RetryCompaction.KeepsProtocol` | src/agent/dispatcher.rs:951-995 | a well-formed conversation stays well formed |
| `RetryCompaction.FindLastUser` | src/agent/dispatcher.rs:955-958 | the last user message, searched from the end |
| `Chat.ProtocolConcat` | src/llm/provider.rs:118-148 | well-formed lists concatenate to a well-formed list |
| `Chat.ProtocolSplit` | src/llm/provider.rs:118-148 | a well-formed list can be cut before any message that is no tool result |
| `AgenticLoop.RunAgenticLoop` | src/agent/agentic_loop.rs:129-208 | result and events of the loop over an arbitrary delegate |
| `AgenticLoop.RunIteration` | src/agent/agentic_loop.rs:135-204 | one iteration: signals, early exit, the call, nudge or text or tools |
| `AgenticLoop.RunEndsAtTheFirst` | src/agent/agentic_loop.rs:129-250 | a run has the result of the first iteration that ends it, or has used up its iterations, and does what these iterations do in order |
| `ChatRequests.IterationTable` | src/agent/agentic_loop.rs:146-250 | what one iteration does, how it ends the loop and the nudge counter it leaves, case by case |
| `AgenticLoop.NudgesAreBounded` | src/agent/agentic_loop.rs:157-186 | for any delegate a stretch without tool calls and without text that lacks tool intent holds at most max_tool_intent_nudges nudges |
| `AgenticLoop.CallsAreBounded` | src/agent/agentic_loop.rs:135-208 | any run calls the LLM at most once an iteration |
| `AgenticLoop.ChatLoopTerminates` | src/agent/dispatcher.rs:158-191 | the chat loop never returns MaxIterations and calls the LLM at most max(1, max_tool_iterations) times when the LLM answers with text whenever text is forced |
| `AgenticLoop.ChatLoopExhausted` | src/agent/dispatcher.rs:278-306 | the chat loop can run out only if the LLM calls tools in every forced iteration |
| `AgenticLoop.AlwaysCallingExhausts` | src/agent/agentic_loop.rs:188-208 | such a run exists: tools called in every iteration use up all of them |
| `ChatRuns.RequestsAreWellFormed` | src/agent/dispatcher.rs:262-403 | in every chat run from a well-formed conversation every request the LLM gets is well formed: through the limit note, nudges, tool batches that continue and the compaction before a retry |
| `Conversations.EveryRequestIsWellFormed` | src/agent/thread_ops.rs:303-330 | from the empty thread on, through any sequence of thread mutations, user turns with their chat runs, approval decisions and resumed runs, every request to the LLM obeys the tool-call protocol |
| `Conversations.DecisionKeeps` | src/agent/thread_ops.rs:876-1200 | a decision on a batch that continues a well-formed conversation leaves such a batch again, or a well-formed conversation for the resumed run |
| `Conversations.RequestsExactly` | src/agent/thread_ops.rs:303-330 | what each step sends: a user turn the requests of a run on the printed thread with the new input, a decision that goes on those of a run on the conversation it leaves |
| `Conversations.PendingExactly` | src/agent/thread_ops.rs:767-1195 | what each step leaves pending and what it does to the turns |
| `ChatRuns.RunChat` | src/agent/dispatcher.rs:162-199 | the chat loop over the conversation makes exactly the requests and gives the result of the specified run; if it asks for approval it leaves the messages of the suspended batch |
| `ChatRuns.Iterate` | src/agent/dispatcher.rs:262-415 | one iteration: limit note, refusal, request with its retry, and the reaction to the reply |
| `ChatRuns.ChatRunEnds` | src/agent/dispatcher.rs:158-191 | when the LLM answers with text while tools are withheld, the run ends before its iterations do, with at most two requests each |
| `ChatRuns.SeenIsChat` | src/agent/dispatcher.rs:251-415 | every chat run is a run of the loop over a delegate that obeys the limits above |
| `ChatRequests.NoteIsAddedExactlyWhen` | src/agent/dispatcher.rs:159-160 | the first request of an iteration ends with the limit note it adds exactly when text is not forced in it and is in the next one; after an overflow a second request carries the compaction |
| `ChatRequests.NoteIsAddedOnce` | src/agent/dispatcher.rs:262-278 | in every run requests before that iteration carry no note more than the start, and all from it on exactly one more; with a limit of 0 or 1 none does |
| `ChatRequests.IterationEnds` | src/agent/dispatcher.rs:252-449 | how a chat iteration ends the run: interruption, refusal, failed call, text unless nudged (at most twice in a row and not when forced), or the batch's outcome |
| `ChatRequests.ReplyIsCarried` | src/agent/dispatcher.rs:405-449 | the conversation goes on with the model's text and the nudge, or with the declaration of its calls and their answers |
| `ChatRequests.ReplyFollowsLastRequest` | src/agent/dispatcher.rs:328-403 | the reply is added to the conversation of the last request that was sent |
| `Compaction.Compact` | src/agent/compaction.rs:45-77 | the most recent turns remain, or everything when the summary or the write failed; turns_removed and the token counts are exact, and the summary is the model's exactly when one was asked for |
| `Compaction.CompactWithSummary` | src/agent/compaction.rs:80-129 | every outcome of summary and write: nothing to do, LLM error, write failure (thread unchanged, 0 removed), success |
| `Compaction.CompactToWorkspace` | src/agent/compaction.rs:145-184 | every outcome of archiving, with the fallback of five turns without a workspace |
| `Compaction.CompactTruncate` | src/agent/compaction.rs:132-142 | keeps the last turns and reports exactly how many went |
| `Compaction.TokensDropped` | src/agent/compaction.rs:45-77 | tokens before minus tokens after is the token sum of the dropped turns' messages |
| `Compaction.TruncatedPrintIsSuffix` | src/agent/session.rs:386-395 | the printed messages afterwards are a suffix of those before, up to the ids of tool calls |
| `Compaction.KeepsMostRecent` | src/agent/session.rs:386-395 | exactly the last min(keep, n) turns survive, in order and numbered from 0 |
| `Compaction.CompactTwice` | src/agent/session.rs:386-395 | truncating to a and then to b is truncating to min(a, b) |
| `Compaction.Analyze` | src/agent/context_monitor.rs:161-184 | the total is the sum over all messages and splits exactly into the four roles |
| `Compaction.EstimateIsExact` | src/agent/context_monitor.rs:126-134 | the estimate is 4 and thirteen tenths of the words, rounded down |
| `Compaction.WordsAddUp` | src/agent/context_monitor.rs:128 | whitespace separates words: both sides are counted |
| `Compaction.OneWord` | src/agent/context_monitor.rs:128 | a text without whitespace is one word, or none when empty |
| `Compaction.RoleSumAdds` | src/agent/context_monitor.rs:161-184 | the sums by role add up over lists |
| `SessionRuns.RunKeeps` | src/agent/session_manager.rs:101-343 | every run of calls that do not overlap keeps the invariant behind that: owned sessions, threads and mappings, and unused ids |
| `SessionRuns.MappingsAreSound` | src/agent/session_manager.rs:105-343 | from an empty manager on, in every run of calls that do not overlap, no two keys share a thread and every mapped thread has an undo manager and was made for the user of its key |
| `SessionRuns.KeysAreStable` | src/agent/session_manager.rs:119-129 | a key resolved again, after any calls that neither prune its user, drop its thread nor register over it, gives the same session and live thread and changes nothing |
| `SessionRuns.KeysAreIsolated` | src/agent/session_manager.rs:131-165 | two keys never resolve to one thread, whatever external ids they carry |
| `SessionRuns.FirstChannelAdopts` | src/agent/session_manager.rs:136-165 | an unmapped thread named by its own id is adopted by the first channel, and the next channel gets a thread of its own |
| `SessionRuns.RegisteredIsFound` | src/agent/session_manager.rs:192-222 | a registered thread is found under its own id; registering again changes nothing and keeps its undo manager |
| `SessionRuns.RegisterLeavesExactly` | src/agent/session_manager.rs:192-224 | the thread under its own id, the tracked session or else the given one, the undo manager it had or else a new one; nothing else changes |
| `SessionRuns.RegisterSharesExactlyWhen` | src/agent/session_manager.rs:192-208 | registration keeps threads apart exactly when no other key has the thread |
| `SessionRuns.RegisterCanShareAThread` | src/agent/session_manager.rs:192-208 | a thread made for one channel and registered for another is under two keys |
| `SessionRuns.PruneForgets` | src/agent/session_manager.rs:249-343 | pruned users lose session and mappings, other keys keep thread and undo manager, and a pruned user's next resolution starts with a new session and one new thread |
| `SessionRuns.PruneDropsExactly` | src/agent/session_manager.rs:249-343 | the sessions and keys of stale users and the undo managers of the threads in those of their sessions that can be locked go; everything else stays |
| `SessionRuns.ResolveKeeps` | src/agent/session_manager.rs:105-187 | a resolution keeps the invariant and leaves its key mapped to the live thread it returns, in the user's tracked session |
| `SessionRaces.OneSessionPerUser` | src/agent/session_manager.rs:53-100 | however lock sections interleave, all calls of a user hold one session |
| `SessionPruning.PruneAlone` | src/agent/session_manager.rs:249-343 | five uninterrupted sections of a prune do what the whole prune does |
| `SessionPruning.SessionLostExactlyWhen` | src/agent/session_manager.rs:311-319 | a call is left with a session no longer tracked exactly by the section of a prune that removes its user's session |
| `SessionPruning.StraysExactlyWhen` | src/agent/session_manager.rs:311-325 | a mapping comes to belong to a user without a session exactly when a call writes it while the user has none, or a prune removes the session under it |
| `SessionPruning.SparingRunsLeaveNoStrays` | src/agent/session_manager.rs:249-343 | if no prune removes the session of a user with a resolution at work, then at every moment of every run each such mapping is about to be removed or its user about to be registered, and resolutions at work hold tracked sessions |
| `SessionPruning.OvertakenThreadIsLost` | src/agent/session_manager.rs:160-188 | in every world a prune that overtakes a resolution about to make its thread leaves the key mapped to it without a session, and the next resolution returns another session and thread |
| `SessionPruning.PruneOvertakesResolution` | src/agent/session_manager.rs:249-343 | a run from the start reaches such a world |
| `UndoPruning.UndoLostExactlyWhen` | src/agent/session_manager.rs:327-332 | a thread loses its undo manager exactly by the last section of a prune that collected it |
| `UndoPruning.BareExactlyWhen` | src/agent/session_manager.rs:327-332 | a thread that keys lead to comes to be without an undo manager exactly when a call maps it before making one, or a prune drops the one it has |
| `UndoPruning.MappedThreadsAreServed` | src/agent/session_manager.rs:249-343 | if no prune drops the undo manager of a mapped thread, then at every moment of every run each mapped thread has one or a call makes it next |
| `UndoPruning.ReturningThreadLosesUndo` | src/agent/session_manager.rs:192-224 | in every world a thread registered again between the last two sections of a prune that collected it is mapped and tracked and still loses its undo manager, and the next look makes another one |
| `SessionAdoptions.AdoptionsNeverCollide` | src/agent/session_manager.rs:148-160 | two adoptions never place one id under two keys, whatever else is called |
| `SessionAdoptions.AtMostTwoKeys` | src/agent/session_manager.rs:131-178 | without registrations a thread is under at most two keys, and then one of them created it and the other adopted it |
| `SessionAdoptions.PatientRunsShareNothing` | src/agent/session_manager.rs:131-178 | if no adoption names a thread whose creator has yet to map it, no thread is shared in any interleaving |
| `SessionAdoptions.SharesExactlyWhen` | src/agent/session_manager.rs:148-178 | without registrations a step makes two keys share a thread exactly when it maps a created thread that an adoption has already put under another key |
| `SessionTraces.ResolveAlone` | src/agent/session_manager.rs:105-187 | the eight lock sections of a resolution, taken without interruption, do what the whole call does |
| `SessionTraces.RegisterAlone` | src/agent/session_manager.rs:192-222 | the same for registration |
| `SessionTraces.UndoAlone` | src/agent/session_manager.rs:225-244 | the same for undo managers |
| `SessionTraces.SettledKeysAreStable` | src/agent/session_manager.rs:119-129 | once a key has a live thread and no call is about to write its mapping, every later resolution of it returns that thread under any overlap |
| `SessionTraces.OverlapMakesTwo` | src/agent/session_manager.rs:167-187 | whenever two calls have both found a key without a thread they make two, whatever steps follow in whatever order |
| `SessionTraces.OverlapOrphansOne` | src/agent/session_manager.rs:167-187 | in such a run the key keeps the second thread and no key leads to the first |
| `SessionTraces.TwoResolutionsTwoThreads` | src/agent/session_manager.rs:105-187 | two overlapping calls get that far |
| `SessionTraces.AdoptionInsideCreation` | src/agent/session_manager.rs:136-178 | a call that names a thread between its creation and its mapping makes two keys share it |
| `SessionTraces.UndoManagersStay` | src/agent/session_manager.rs:180-184 | a step replaces a thread's undo manager exactly when it is the last section of a creation of that thread |
| `SessionManagers.SessionManager.GetOrCreateSession` | src/agent/session_manager.rs:53-100 | returns the tracked session or tracks a new empty one |
| `SessionManagers.SessionManager.ResolveThread` | src/agent/session_manager.rs:105-187 | the whole call: live mapping, adoption, or a new thread, with the three maps afterwards |
| `SessionManagers.SessionManager.RegisterThread` | src/agent/session_manager.rs:192-222 | maps, keeps an existing undo manager, tracks the session only if there is none |
| `SessionManagers.SessionManager.GetUndoManager` | src/agent/session_manager.rs:225-244 | the manager of the thread, made if missing |
| `SessionManagers.SessionManager.PruneStaleSessions` | src/agent/session_manager.rs:249-343 | removes the stale sessions, their users' mappings, and the undo managers of those whose session could be locked |
| `SessionManagers.SessionManager.CollectThreads` | src/agent/session_manager.rs:278-289 | exactly the threads of stale users whose session is not contended |
| `SettingsRoundTrip.RoundTrip` | src/settings.rs:670-719 | for every tree the struct takes and whose leaves read back from their text: saved flat and loaded over the defaults in any order, it comes back exactly when it keeps the defaults' objects, adds only leaves, and every leaf is of a kind its place takes |
| `SettingsRoundTrip.LoadIsBack` | src/settings.rs:670-705 | the order of the entries does not matter, refused ones included: every order loads one and the same tree |
| `SettingsRoundTrip.BackWhenRestored` | src/settings.rs:835-909 | what comes back is what was saved exactly under the condition on kinds |
| `SettingsRoundTrip.WrittenStays` | src/settings.rs:857-900 | a value that its field takes, written as text over another, is read back exactly for the listed kinds |
| `SettingsRoundTrip.OwnLeafFits` | src/settings.rs:904-906 | each field takes the leaf that a settings tree holds there |
| `SettingsRoundTrip.ObjectOverLeafIsLost` | src/settings.rs:121-123 | an object over a default that is none, such as the transcription section once it is set, comes back as the default, whatever it holds |
| `SettingsRoundTrip.NullEntriesAreSkipped` | src/settings.rs:684 | loading any map, foreign entries included, is loading it without its null entries |
| `SettingsRoundTrip.JsonLookingStringIsLost` | src/settings.rs:886-906 | a string over a null default that reads as JSON never comes back: it comes back as what it reads as when its field takes that, else unset |
| `SettingsRoundTrip.ResetIsExact` | src/settings.rs:912-919 | reset gives the default back exactly when the present value takes its kind |
| `SettingsRoundTrip.ResetWritesNullText` | src/settings.rs:912-919 | an optional string is reset to the text of null, not to null |
| `SettingsRoundTrip.ForeignEntryIsSkipped` | src/settings.rs:689-692 | an entry below a key the tree lacks changes nothing and is a path error |
| `SettingsTypes.StructIsFieldwise` | src/settings.rs:12-662 | every struct built of the kinds of fields that the settings have (leaves of any type with a default, sections, optional sections, maps to leaves) decodes field by field what a load may write, optional sections that are unset included |
| `SettingsTypes.SettingsComeBack` | src/settings.rs:670-719 | every such struct, with any values whose leaves read back: saved flat and loaded in any order it comes back exactly when every field does |
| `SettingsTypes.RestoresByType` | src/settings.rs:12-662 | what comes back, read off the types: an optional section only unset, a leaf when its default takes its kind, map entries unless they are strings that read as JSON |
| `SettingsTypes.UserIdComesBack` | src/settings.rs:886-890 | a tree with a user id to notify and transcription unset comes back exactly when the id is no JSON text |
| `SettingsTypes.NumericUserIsUnset` | src/settings.rs:886-906 | a user id that reads as a number comes back unset |
| `SettingsPaths.SplitJoined` | src/settings.rs:936-956 | splitting at dots undoes joining for keys that are not empty and have no dot |
| `SettingsPaths.OtherKeysAreLost` | src/settings.rs:944-948 | a dot in a key, or an empty key at the top, makes two paths one |
| `SettingsMerge.MergeIsLeafWise` | src/settings.rs:997-1023 | on settings trees, entries of maps and unset sections included, the merge is the one tree that takes every leaf from the layer where it differs from the default, else from the base |
| `SettingsMerge.MergeNonDefault` | src/settings.rs:997-1023 | the loop over the layer's keys computes the merge |
| `SettingsMerge.MergeDefaults` | src/settings.rs:997-1023 | merging the defaults changes nothing, for all trees |
| `SettingsMerge.MergeTwice` | src/settings.rs:997-1023 | merging a layer twice is merging it once, for all trees |
| `SettingsMerge.MergeYieldsDefaults` | src/settings.rs:997-1023 | a merge equals the defaults only if its base did |
| `SettingsMerge.LayersAssociate` | src/settings.rs:786-811 | layers may be merged among themselves first; over the bare defaults a layer is itself |
| `SettingsMerge.LayerOverDefaults` | src/settings.rs:997-1023 | for all trees, a layer over the bare defaults comes out unchanged exactly when it covers them |
| `SettingsMerge.WizardKeepsAnswers` | src/setup/wizard.rs:195-197 | the wizard's double merge gives the fresh answer, else the stored value, else the default, at every leaf, map entries and sections that are unset by default included |
| `SettingsMerge.TopLayerDecides` | src/config/mod.rs:235-250 | the top layer decides a leaf exactly when it sets it away from the default or the layer below does not |
| `SettingsTrees.Settings.Set` | src/settings.rs:835-909 | walks to the parent, converts by the kind found there, and either applies the new tree or reports which step failed and changes nothing |
| `SettingsWrites.SetEndsExactly` | src/settings.rs:835-909 | over every tree and path: the parent must exist and be an object, the text must become a value there, the struct must take the tree that is otherwise as before; the first that fails gives its error |
| `SettingsWrites.ConversionIsExact` | src/settings.rs:857-900 | a text becomes one value by the kind it replaces, stated for each kind, and is refused with that kind's error exactly when it becomes none |
| `SettingsTrees.Settings.MergeFrom` | src/settings.rs:792-811 | replaces the settings by the decoded merge, or keeps them if it does not decode |
| `SettingsTrees.Settings.ToDbMap` | src/settings.rs:710-719 | the flat map holds exactly the leaves, under their dotted paths |
| `SettingsTrees.Settings.FromDbMap` | src/settings.rs:670-705 | loads the entries over the defaults in some order that takes each key once |
| `SettingsTrees.Settings.GetText` | src/settings.rs:813-830 | the text of the value at a path, none if the path leads nowhere |
| `SettingsTrees.CollectSettingsJson` | src/settings.rs:936-956 | adds exactly the leaves below the prefix to the map |
| `EnvFileLaws.BatchOverrides` | src/bootstrap.rs:211-251 | after a batch, whatever the file, its keys are bound to the new values; another key to what it was exactly when its line reads the same without one carriage return at its end |
| `EnvFileLaws.UnrelatedLinesSurvive` | src/bootstrap.rs:228-240 | all other lines survive in order exactly when none of them ends in a carriage return of its own |
| `EnvFileLaws.BatchTwice` | src/bootstrap.rs:211-251 | upserting a batch twice is upserting it once exactly on that condition |
| `EnvFileLaws.BatchAgreesWithEach` | src/bootstrap.rs:211-303 | for any file the batch and single upserts one after the other bind a key alike exactly when: for a key they write, its first line is absent, has no spaces around the key, or says the new value; for another key, its line reads the same read and written once or once an upsert |
| `EnvFileLaws.TidyFilesAgree` | src/bootstrap.rs:211-303 | on files as these functions write them the two forms always agree |
| `EnvFileLaws.SingleBindsExactlyWhen` | src/bootstrap.rs:264-303 | for any file a single upsert binds its key exactly when the key's first line is absent, has no spaces around the key, or says the new value already |
| `EnvFileLaws.SingleOverrides` | src/bootstrap.rs:264-303 | for any file a single upsert leaves another key as it was exactly when its line reads the same without one carriage return at its end |
| `EnvFileLaws.SpacedKeyHidesSingle` | src/bootstrap.rs:281-298 | a file in which the batch binds the key and the single form does not: the key written with a space |
| `EnvFileLaws.SaveReadsBack` | src/bootstrap.rs:185-199 | a saved file reads back as its variables, in order |
| `EnvFileLaws.WrittenFilesAreTidy` | src/bootstrap.rs:211-251 | batches keep files tidy |
| `EnvFiles.QuotedReadsBack` | src/bootstrap.rs:190-195 | unescaping inverts the two replacements for every value, and no value ends its quotes early |
| `EnvFiles.EnvFile.Save` | src/bootstrap.rs:185-199 | the whole new file, or what a failed call leaves |
| `EnvFiles.EnvFile.UpsertVars` | src/bootstrap.rs:211-251 | the whole new file; an unreadable file stops it unchanged |
| `EnvFiles.EnvFile.UpsertVar` | src/bootstrap.rs:264-303 | the whole new file; an unreadable file is taken for an empty one and lost |
| `Utf8.FloorIsGreatestBoundary` | src/tracing_fmt.rs:112-120 | in valid bytes the walk back ends at the greatest character boundary at or before the position, at most three bytes before it, and nowhere else |
| `Utf8.BoundaryIsNoTail` | src/tracing_fmt.rs:114-118 | inside valid bytes a position is a boundary exactly when its byte is no tail byte |
| `Utf8.CutIsValid` | src/tracing_fmt.rs:130-136 | a prefix of valid bytes is valid exactly when it ends at a boundary |
| `Utf8.FloorsAgree` | src/util.rs:8-17 | the two floor functions agree at every position inside the bytes |
| `Utf8.Utf8Floor` | src/tracing_fmt.rs:112-120 | the last position at or before the given one that is 0 or no tail byte, for any bytes |
| `Utf8.FloorCharBoundary` | src/util.rs:8-17 | the greatest boundary at or before the position, the length from the end on |
| `Utf8.EventBuffer.Drop` | src/tracing_fmt.rs:122-165 | short events unchanged, long ones cut at the floor without a trailing newline and marked; valid output for valid input |
| `Utf8.EventBuffer.Write` | src/tracing_fmt.rs:96-100 | appends all bytes |
| `Utf8.LittleIsLost` | src/tracing_fmt.rs:130-143 | a cut event keeps a prefix within four bytes of the limit |
| `Utf8.SuffixReads` | src/tracing_fmt.rs:133 | the mark is dots, the size of the whole event in decimal and a newline |
| `Utf8.DecimalReads` | src/tracing_fmt.rs:133 | the digits read as the number, most significant first, without a leading zero |
| `Utf8.OneNewlineGoes` | src/tracing_fmt.rs:136-141 | one newline at the end of the cut goes, and nothing else |
| `Utf8.MaskIsTail` | src/tracing_fmt.rs:116 | the bit mask tests the tail range of section 4 of RFC 3629 |
| `SchedulerRuns.CapacityHolds` | src/agent/scheduler.rs:226-286 | under every interleaving of schedule, stop and both cleanups the map never exceeds max_parallel_jobs |
| `SchedulerRuns.RunningWorkersAreBounded` | src/agent/scheduler.rs:226-307 | if no id is scheduled between a cleanup task's last look and its removal and no stop is dropped while its worker runs, every running worker is in the map or being stopped, and there are at most max_parallel_jobs of them |
| `SchedulerRuns.CarefulIsCalm` | src/agent/scheduler.rs:288-307 | not scheduling an id while any of its cleanup tasks lives, and dropping no stop, is enough for that |
| `SchedulerRuns.LostExactlyWhen` | src/agent/scheduler.rs:219-307 | a step makes a running worker untraceable exactly when it removes the entry of a job whose worker runs or drops a stop whose worker runs |
| `SchedulerRuns.DroppedStopLoses` | src/agent/scheduler.rs:539-552 | a stop dropped in its grace period leaves its worker running outside the map, and two run where one may |
| `SchedulerRuns.DroppedScheduleNeverRuns` | src/worker/job.rs:209-220 | a scheduling call dropped before its start signal leaves the jobs and the running workers as they were, and its worker runs at no moment of any later run |
| `SchedulerRuns.RescheduleInTheGap` | src/agent/scheduler.rs:288-307 | scheduled again inside the gap a worker is lost from the map, and two run where one may |
| `SchedulerRuns.EveryEntryIsWatched` | src/agent/scheduler.rs:285-307 | in every run every entry has a cleanup task that has not ended, or that the call which made the entry is about to spawn |
| `SchedulerRuns.WatcherFreesExactlyWhen` | src/agent/scheduler.rs:291-303 | a look of a cleanup task and its removal free the entry exactly when the worker has ended |
| `SchedulerRuns.WatcherMovesExactly` | src/agent/scheduler.rs:288-305 | what spawning, looking and removing do to a cleanup task and the map, case by case |
| `SchedulerRuns.ScheduleEndsExactly` | src/agent/scheduler.rs:226-286 | a scheduled job is fine, a full map refuses first and the job's state second, neither changing anything; else the job runs in a new worker under a cleanup task |
| `SchedulerRuns.StopEndsExactly` | src/agent/scheduler.rs:539-556 | the entry goes and no other; the worker has ended, is asked to end, or runs on only if the call was dropped |
| `SchedulerRuns.CleanupEndsExactly` | src/agent/scheduler.rs:634-650 | the entries of ended workers go, all of them and no others |
| `Schedulers.Scheduler.ScheduleWithContext` | src/agent/scheduler.rs:219-311 | no second worker for a scheduled job, no job beyond the limit, nothing changed when the job may not move; dropped while it sends the start signal it leaves an unstarted worker and no entry |
| `Schedulers.Scheduler.Stop` | src/agent/scheduler.rs:539-591 | the entry goes; a worker that does not end in the grace period is asked to end, unless the call is dropped |
| `Schedulers.Scheduler.CleanupFinished` | src/agent/scheduler.rs:634-650 | removes exactly the entries of ended workers |
| `Schedulers.Scheduler.PollWatcher` | src/agent/scheduler.rs:291-305 | a cleanup task goes on to remove exactly when the entry is gone or its worker has ended |
| `Schedulers.Scheduler.SpawnWatcher` | src/agent/scheduler.rs:288-290 | the cleanup task starts after the lock is released |
| `Schedulers.Scheduler.RemoveWatched` | src/agent/scheduler.rs:300-303 | the removal takes whatever entry the job has by then |

## Left out

- CostGuardRuns.HourlyLimitIsTight: shown with windows that start at time 0 and a limit of at least 1; with limit 0 nothing is ever recorded.
- CostGuardSpend.DailyLimitHolds: as long as the bound fits 2^64 cents; beyond, whole cents read as 0 and calls are let through again.
- Preview.TruncateTwice: for budgets of at least 51 bytes; threads use 1000, and below 51 the closing tag alone can outgrow the budget.
- SettingsRoundTrip.RoundTrip: for trees whose leaves read back from their text. serde_json does not read arrays nested deeper than its limit of 128, and without its `float_roundtrip` feature may read a float one unit off; Settings holds neither.
- SettingsTypes.StructIsFieldwise: values that only a hand-written entry could bring in, such as a list of fields for a section or an object for the key source, are refused here, while serde reads them.
- SettingsRoundTrip.ResetIsExact: assumes that the typed struct takes the written tree unchanged.
- SessionRaces.OneSessionPerUser: for runs without pruning, as are SessionAdoptions and SessionTraces; with a prune in between, SessionPruning.SessionLostExactlyWhen gives the step that breaks it.
- SessionAdoptions.AtMostTwoKeys: for runs without registrations, whose effect is stated by SessionRuns.RegisterSharesExactlyWhen.
- SchedulerRuns.RunningWorkersAreBounded: a worker that has been asked to end no longer counts as running, although it may run on until its next await.
- EnvFileLaws.BatchOverrides: read by this project's own line reader, because dotenvy is not part of the repository; its `$` substitution and its `export` prefix are not modelled.
- EnvFileLaws.SaveReadsBack: for values without newlines and keys without `=`, spaces around them or a leading `#`; a value with a newline is written as two lines.
- ChatRuns.RequestsAreWellFormed: the conversation of the loop; the system prompt and the provider's own rewriting of messages are added later.
- ToolBatches.ApprovalRoundsComplete: the message list only; auth mode, the completed turn and the persisted answer of a turn that ends are not modelled, and neither are stale or mismatched approvals, which change nothing.
- ToolExecution.ChatDelegate.ExecuteToolCalls: a lone call runs in place, so its panic unwinds; that outcome is stated, not prevented.
- SettingsTrees.Settings.Set: the `&mut` cursor into the tree is a walk to the parent followed by a replacement at that path, since Dafny's trees are values.
- Turns, tool calls and sessions are values inside their owner, as Rust owns them; only the owning object is a class.
- Image parts, timestamps, `pending_approval` and `pending_auth` on threads, session switching and auto-approved tools: no effect on the modelled results.
- `suggest_compaction` and `needs_compaction`: comparisons with an f64 threshold; the 1.3 tokens a word are the exact ratio 13/10.
- Summary and archive texts of compaction, workspace paths, LLM prompts.
- Log messages and status updates, including the 80 percent warning and its multiplication.
- 96-bit decimal rounding, overflow of the u64 token counters, clocks that go backwards.
- The job context's state machine, the undo stack, hooks, LLM providers, sanitizers, TOML and serde: parameters or outcomes.
- Subtasks of the scheduler: the same cleanup pattern without a limit.
- A failed file write: its remains are a parameter. `list`, which only formats: easy.
- The relaxed ordering of the budget flag beyond what a check may read: `CostGuardRuns.Event.Begin` lets the load return any value.
- The concurrency caps of the routine engine, command parsing, quiet hours, the worker and the user interfaces.
