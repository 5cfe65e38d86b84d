# gen2: verified model

A Dafny model of the parts of gen2 that schedule, order, buffer and account, with proofs of
what they promise. `dafny verify dfyconfig.toml` checks all of it.

## What is modelled

**The streaming tool executor** (`src/executor.rs`). `ExecutorModel` is a transition system: the
threads of the callers, the spawned tasks and the executor loop take atomic steps in any order.
An operation is a sequence of atomic accesses to a shared state, each of which may depend on what
the operation has read before. `ExecutorInvariant` is what every
step keeps; `ExecutorSafety` (overlap, ordered delivery, cancellation), `ExecutorProgress`
(deadlock freedom, a bound on every run after closing), `ExecutorCapacity` (the cap can be used up)
and `ExecutorSerial` (serializability) build on it. `ExecutorLoop` is the code itself, an object whose methods are proved to take exactly
the steps of the model.

**The semantic stream** (`src/generation/reply_parts.rs`, `src/api/event.rs`,
`src/api/async_turn.rs`). `ReplyScanner` cuts the reply at channel markers as tokens arrive.
`BatchParts` says what a whole stream of slices and speech amounts to; `AssemblyStep` and
`Assembly` are the incremental assembler, proved against it. `StreamModel` and `EventStreams` are
the stream's life cycle and the blocking iterator, whose core owns the assembler, which owns the
scanner; `AsyncBridge` and
`AsyncStream` are the worker, the bounded channel and the consumer, interleaved in any order.
`Recording` puts them together: what a turn leaves in the session is what its consumer was handed.
`RawTurn` begins at the texts the backend writes: how they are cut into tokens makes no difference.
`MessageMeaning` and `TurnMeaning` say what a message keeps of what was streamed and what events and
record say about it, in the backend's terms.
Behind the scanner an event of the backend is a `TokenEvent`, which holds slices; before it, a
`BackendEvent`, which holds text.

**The agent** (`src/api/agent.rs`). `AgentModel` is a tool round dispatched one call at a time;
`AgentRound` is the round as the code runs it, with batches, solo calls, approvals and
interruptions; `SortedResults` is the sort that puts results back into call order; `AgentLoop` is
the run with its budgets, its steering queue and the turn that shapes its answer, proved to come to
what `RunOf` says of calls dispatched one by one.

**Self-contained algorithms.** `CivilDate` and `Splice` (`benches/bench_table.rs`),
`ResidencyPolicy` (`src/residency_policy.rs`), `Continuity` (`examples/continuity.rs`) and `Router`
(`src/router.rs`).

## What stands for what

- Channels are sequences, semaphores are counters, an atomic load or store is one step. A task's load
  of the cancel flag and the start that follows it are merged into one step (`CheckAndStart`), so a
  cancel falls before the load or behind the start.
- Operations and tools terminate and do not panic. A panicked task of the executor never sends its
  completion.
- The receiver of the executor's results stays alive.
- `biased` selection in the executor loop is modelled as either order; `ExecutorLoop` has the order
  of the source.
- Tools that declare themselves parallel-safe only read the world (`AgentModel.WellDeclared`), as
  operations of the executor guarded `Safe` or `GpuBound` do (`ExecutorSerial.WellClassified`). The
  results that need this have it as a hypothesis.
- The token counter of an agent run wraps at 32 bits, as in an optimized build of the source; a build
  with overflow checks panics there instead.
- A date whose count overflows 64 bits on the way has the outcome `Overflows`: a build with overflow
  checks panics there, an optimized one returns a wrapped number.
- A model's memory need is any function that never decreases with the context.
- Strings are sequences of Unicode scalar values; matching a marker or a needle is by character.
- What another thread, the model, a deadline or the user does is a parameter, quantified over.

## Where the code and its documentation differ

The model follows the code.

- `Decision::Deny` (`src/api/agent.rs:65-67`) is documented as reaching the model. A denial is not
  actionable, so the run ends with an error and nothing about it is appended
  (`AgentRound.DenialIsNeverTold`).
- When the progress guard fires, results of calls that already ran in the round are not appended:
  the transcript keeps the request and no answer (`AgentRound.AgentRun.RunRound`, its `Circles` case).
- `route` (`src/router.rs:101-121`) is documented to prefer downloading over a remote peer at normal
  priority and to break ties by presence. A peer is preferred, and ties are broken by memory and
  then by device id (`Router.Justified`, `Router.RankTotal`).
- A message waiting at the end of an agent's turn is documented as never dropped silently
  (`src/api/agent.rs:549-555`). One that arrives while the answer is shaped is not delivered in that
  run; it waits for the next (`AgentLoop.Runner.RunWith`).
- `days_from_civil` (`benches/bench_table.rs:381-382`) is documented to return nothing for what is
  not a date. Dates behind `CivilDate.LAST` overflow instead (`CivilDate.OverflowsExactly`,
  `CivilDate.FitsBetween`). Day numbers up to 31 are accepted in every month
  (`CivilDate.OverlongDaySpillsOver`) and text after a third dash is ignored
  (`CivilDate.AcceptedExactly`).
- The estimate of resident memory is documented as keeping the whole file for unset `gpu_layers`
  (`src/residency_policy.rs:322`). With a GPU backend, unset means that all layers are offloaded
  (`ResidencyPolicy.AllOffloaded`).
- The estimate of resident memory grows from one file size to a larger one, on every backend and for
  every layer setting, exactly when the 32-bit layer proxy does not fall between them
  (`ResidencyPolicy.MonotoneExactly`); where the cast wraps it falls
  (`ResidencyPolicy.NotMonotoneBeyondProxy`).
- Offloading layers costs more host memory than offloading none exactly when the layers that go
  weigh, rounded up to whole MiB, less than the fixed overhead of 384
  (`ResidencyPolicy.OffloadingCostsMore`): for one layer, every
  file of at most 30 640 MiB (`ResidencyPolicy.FirstLayerCostsMore`).
- Ties between equal peers are documented as stable because they go to the smaller device id
  (`src/router.rs:176-179`). The decision is independent of the order of the peers exactly when it is
  settled before peers are looked at or all hosts that no host outranks are one record
  (`Router.OrderIndependentExactly`), which distinct ids ensure.
- Tokens are accumulated so that a budget bounds the whole run (`src/api/agent.rs:528-530`). It does
  exactly as long as they fit the 32-bit counter (`AgentLoop.BudgetHoldsExactly`,
  `AgentLoop.WrapPassesBudget`).
- `splice` is idempotent exactly for tables without the end marker (`Splice.Idempotent`).

## Model

| member | source | states |
|---|---|---|
| ExecutorModel.FlushEnd | src/executor.rs:272-294 | the flush passes every resolved slot and stops exactly at the first pending one |
| ExecutorInvariant.StepKeepsInv | src/executor.rs:347-460 | permits, completions in the channel, slots, cursor, delivered values and the loop's place agree after every step that agreed before |
| ExecutorInvariant.RunKeepsInv | src/executor.rs:347-460 | they agree in every reachable state |
| ExecutorSafety.NoForbiddenOverlap | src/executor.rs:299-436 | at most the cap of Safe/GpuBound operations run, at most one GpuBound, a running Exclusive one runs alone, and of two operations one of which is Exclusive the later starts only when the earlier has finished or been skipped |
| ExecutorSafety.OneGpuHolder | src/executor.rs:319-333 | no two tasks hold the GPU permit |
| ExecutorCapacity.PermitsAccounted | src/executor.rs:319-344 | in every reachable state free permits and holders are together the cap, at least one, and there is one GPU permit; only tasks that may run beside others hold any |
| ExecutorCapacity.CapIsUsable | src/executor.rs:319-331 | a waiting Safe or GpuBound operation gets a permit exactly as long as fewer than the cap are held, the GPU as long as nobody has it, and with these it starts |
| ExecutorCapacity.ManyAtOnce | src/executor.rs:299-345 | as many Safe operations as the cap allows can all be running at once |
| ExecutorSafety.DeliveredInOrderExactlyOnce | src/executor.rs:272-294 | delivered values are always the outcomes below the cursor in submission order; at exit the cursor is at the end; uncancelled, every accepted operation has exactly one value in its position |
| ExecutorSafety.ExitedMeansDelivered | src/executor.rs:442-460 | after the final drain and flush every operation taken is resolved and every outcome delivered |
| ExecutorSafety.CancellationIsSound | src/executor.rs:325-458 | after a cancel nothing starts, and at exit every operation that had started has its value at its own place, none withheld by a skipped one |
| ExecutorSerial.Serializable | src/executor.rs:347-460 | with readers guarded Safe/GpuBound, every value delivered under any interleaving is the one of the one-by-one run in submission order; an uncancelled run delivers exactly that sequence |
| ExecutorSerial.SerialIsOneByOne | src/executor.rs:347-460 | the run compared with is one operation after the other, each alone from what the one before left, its value computed from all it saw |
| ExecutorSerial.StepKeepsSerial | src/executor.rs:347-460 | every step keeps the shared state and what each operation has seen equal to the one-by-one run |
| ExecutorProgress.NeverStuck | src/executor.rs:299-460 | unless nothing is left to do, a task or the loop can step, although a GpuBound task waits for its second permit holding the first and the drain blocks the loop |
| ExecutorProgress.StepDecreases | src/executor.rs:299-460 | every step of a task or the loop lowers an explicit measure |
| ExecutorProgress.ClosedRunsAreFinite | src/executor.rs:225-236 | after close or cancel no run has more steps of tasks and loop than that measure |
| ExecutorProgress.ClosedRunsEndExited | src/executor.rs:442-460 | a closed executor that can go no further has exited, with all values delivered and all permits returned |
| ExecutorLoop.StreamingToolExecutor.constructor | src/executor.rs:172-193 | a new executor is the initial state of the model, a cap of 0 counting as 1 |
| ExecutorLoop.StreamingToolExecutor.Submit | src/executor.rs:199-211 | refused exactly when cancelled, closed or gone; otherwise queued under the next number |
| ExecutorLoop.StreamingToolExecutor.CloseChannel | src/executor.rs:225-228 | refuses later submissions and loses none |
| ExecutorLoop.StreamingToolExecutor.Cancel | src/executor.rs:233-236 | raises the flag, then closes |
| ExecutorLoop.StreamingToolExecutor.FlushBuffer | src/executor.rs:272-294 | delivers up to the first pending slot, leaving the passed slots pending |
| ExecutorLoop.StreamingToolExecutor.TakeCompletion | src/executor.rs:367-379 | one completion resolves its slot and flushes |
| ExecutorLoop.StreamingToolExecutor.Drain | src/executor.rs:405-416 | reads completions until nothing is in flight |
| ExecutorLoop.StreamingToolExecutor.TakeSubmission | src/executor.rs:381-402 | reserves the slot and spawns, holds, or after a cancel drops |
| ExecutorLoop.StreamingToolExecutor.HandleExclusive | src/executor.rs:418-436 | skipped if cancelled during the drain, else run inline and flushed |
| ExecutorLoop.StreamingToolExecutor.RunExecutorLoop | src/executor.rs:363-460 | the loop is a run of the model; it returns exited, or with the schedule used up and no step of the loop enabled |
| ExecutorLoop.RunToExit | src/executor.rs:347-460 | for any schedule the operations are those its submissions got accepted; an uncancelled run that exits delivers the one-by-one value of each of them; one that does not exit has a loop that waits |
| ReplyScanner.MatchAny | src/generation/reply_parts.rs:478-495 | the longest non-empty marker at a position, or none |
| ReplyScanner.CouldStartAny | src/generation/reply_parts.rs:500-510 | whether some marker goes on where the text stops |
| ReplyScanner.LongerPatternCouldExtend | src/generation/reply_parts.rs:522-534 | behind a longest match, whether a longer marker is still possible |
| ReplyScanner.DecisionStands | src/generation/reply_parts.rs:239-326 | a decision that does not wait is the same whatever text follows |
| ReplyScanner.ScanInTwo | src/generation/reply_parts.rs:216-330 | scanning goes on behind what was held exactly as if the text had come at once |
| ReplyScanner.OpeningLeadsIn | src/generation/reply_parts.rs:284-298 | an opening marker leads from visible text into reasoning |
| ReplyScanner.ClosingLeadsOut | src/generation/reply_parts.rs:284-298 | a closing marker leads back |
| ReplyScanner.QuietPasses | src/generation/reply_parts.rs:299-326 | text in which no marker begins passes unchanged on its channel |
| ReplyScanner.ThinkingIsCutOut | src/generation/reply_parts.rs:216-330 | of text, opening marker, thought, closing marker, answer, the first and the last are visible, the thought is reasoning, and the markers are neither |
| ReplyScanner.SplitSpells | src/generation/reply_parts.rs:216-330 | the slices of a push say, letter by letter, what the scan lets through, none of them empty |
| ReplyScanner.ReplyStateMachine.PushEmit | src/generation/reply_parts.rs:216-330 | the slices, the channel and the held text after a push are those of scanning held text and token together; no slice is empty |
| ReplyScanner.ReplyStateMachine.FlushPending | src/generation/reply_parts.rs:417-430 | what is held comes out on the channel it was held on |
| ReplyScanner.RunsOfSlices | src/generation/reply_parts.rs:216-330 | how letters are cut into slices makes no difference to the runs, behind anything |
| BatchParts.TrimStartMeaning | src/api/event.rs:674-682 | leading margin is removed up to the first character that is none |
| BatchParts.TrimEndMeaning | src/api/event.rs:688-697 | trailing whitespace is removed and nothing else |
| BatchParts.RunsKeepEverything | src/api/event.rs:658-668 | runs alternate channels between speech and hold all that was emitted |
| BatchParts.ChunkingDoesNotMatter | src/api/event.rs:657-712 | cutting a slice into pieces, empty ones included, anywhere in a stream leaves the message unchanged |
| BatchParts.PartsAreTidy | src/api/event.rs:657-718 | no empty part, reasoning without outer whitespace, no leading newline in text after reasoning, no split speech of one rate |
| MessageMeaning.EverythingIsKept | src/api/event.rs:540-718 | a message holds, in order, every sample at its rate, every letter of the text but newlines and of the reasoning but whitespace, and nothing else |
| MessageMeaning.PlainTextIsVerbatim | src/api/event.rs:674-682 | without reasoning the text is what was said, to the letter |
| MessageMeaning.ThoughtBetween | src/api/event.rs:657-712 | a thought loses the whitespace around it, the text before it nothing, the text behind it the newlines in front |
| AssemblyStep.AbsorbAgrees | src/api/event.rs:658-712 | the incremental treatment of a slice is the batch computation with one more slice |
| AssemblyStep.SpeechAgrees | src/api/event.rs:548-562 | speech ends the open run and joins speech of its rate |
| AssemblyStep.GrowKeepsGroups | src/api/event.rs:699-711 | a delta begins a part or continues the last, so the deltas so far still spell the parts |
| AssemblyStep.DeltasSpellTheMessage | src/api/event.rs:708-711 | text deltas together are the visible reply, reasoning deltas the reasoning |
| Assembly.MintedIdsDiffer | src/api/event.rs:481-485 | two calls of a session never share a minted id |
| Assembly.ReasonFor | src/api/event.rs:609-629 | stop wins over calls, calls over the rest, and length needs reported statistics at the budget |
| Assembly.Assembler.constructor | src/api/event.rs:523-537 | a new assembler has absorbed nothing, and its scanner stands at the start |
| Assembly.Assembler.CloseRun | src/api/event.rs:715-718 | nothing open, nothing held |
| Assembly.Assembler.Emit | src/api/event.rs:658-712 | after a slice the parts are the batch parts of everything absorbed, and what is reported is what the history says |
| Assembly.Assembler.Speak | src/api/event.rs:548-562 | the same after a speech chunk, reported as one delta |
| Assembly.Assembler.TakeCall | src/api/event.rs:563-586 | a call is kept under its own or the next minted id and reported as start, arguments, end |
| Assembly.Assembler.Push | src/api/event.rs:540-593 | every event of the backend, put through the scanner, keeps parts, calls, statistics and shed count what the history says, and is reported as the history says |
| Assembly.EventsAreRunning | src/api/event.rs:540-593 | no token event closes the turn |
| Assembly.Assembler.Finish | src/api/event.rs:596-633 | flushes what the scanner holds, keeps the rest of the record and names the right reason |
| Assembly.FinishCloses | src/api/event.rs:596-633 | the end reports usage if the backend did, then exactly one finish event with that reason |
| Assembly.HistorySpells | src/api/event.rs:540-712 | after any token events the deltas reported come in one group per part and spell it |
| Assembly.TurnSpells | src/api/event.rs:540-712 | and after the end of the turn |
| Assembly.Assembler.Take | src/api/event.rs:636-655 | the parts then the calls; one empty text part when there is neither |
| Assembly.Assemble | src/api/event.rs:540-655 | a whole turn: message equals the batch computation, deltas spell it, only the last event closes |
| StreamModel.PullTakesFirst | src/api/event.rs:224-249 | a pull hands out the first item still to be pulled and changes nothing about the rest or the outcome |
| StreamModel.RecordOfAssembled | src/api/event.rs:739-758 | an assembled message is recorded as its calls under the ids of the response, or else as exactly its visible text with exactly its reasoning, none when it has none |
| StreamModel.CompleteKeepsRemaining | src/api/event.rs:260-294 | completion queues the closing events and reaches the outcome the turn was heading for |
| StreamModel.NextTakesFirst | src/api/event.rs:373-384 | the iterator hands out what remains one by one, and when it has nothing left the outcome has been reached |
| StreamModel.NothingForever | src/api/event.rs:370-385 | after nothing comes nothing, without any change |
| EventStreams.RemainingOfNew | src/api/event.rs:224-323 | for any token events a stream hands out what the assembler reports of them and of the end, or, if it breaks, the error behind what was reported |
| EventStreams.LifeCycle | src/api/event.rs:224-323 | for any token events, a stream that does not fail ends with its one finish event, with the reason of the response, and records a message exactly when that is worth recording; one that fails ends with its one error and leaves the session alone |
| EventStreams.FinishGivesTheOutcome | src/api/event.rs:309-367 | finishing a new stream returns the response of a turn that does not fail and the error of one that does |
| EventStreams.CancelledBeforeStart | src/api/event.rs:190-217 | yields only the cancelled finish event and records nothing |
| EventStreams.KthCall | src/api/event.rs:370-385 | the k-th call of the iterator yields the k-th item, and nothing beyond the last |
| EventStreams.StreamCore.Pull | src/api/event.rs:224-249 | running scanner and assembler on each event of the backend computes the pull of the model |
| EventStreams.StreamCore.Complete | src/api/event.rs:260-294 | records, numbers, closes and responds as the model does |
| EventStreams.StreamCore.PopQueued | src/api/event.rs:299-301 | the queue's first event, if any |
| EventStreams.StreamCore.TakeResponse | src/api/event.rs:309-323 | the response once, else the failure, else the default failure |
| EventStreams.EventStream.Next | src/api/event.rs:373-384 | one step of the blocking iterator |
| EventStreams.EventStream.Finish | src/api/event.rs:357-367 | the first error of what remains, or the outcome |
| Recording.AllCalls | src/api/event.rs:563-586 | the calls a consumer saw ended are the calls of the message, under its ids |
| Recording.HeardIsTheMessage | src/api/event.rs:540-718 | the deltas handed out, channel by channel, are the text and the reasoning of the message, and speech was heard exactly when it has some |
| Recording.SameMessage | src/api/event.rs:739-758 | the message recorded is the one a consumer would write down from the events alone, and nothing was worth recording exactly when a stopped turn let nothing be heard |
| Recording.RecordedIsReceived | src/api/event.rs:224-323 | end to end, for any token events: the iterator hands out the events one by one, and the session gains exactly the message the consumer would write down, or none exactly when stopped with nothing handed out, under the id in the response |
| Recording.RecordedIsReceivedAsync | src/api/async_turn.rs:284-330 | the same for the async stream under every interleaving |
| RawTurn.JoinedReads | src/api/event.rs:540-547 | what the scanner lets through, letter by letter, is the same when all text between two chunks of speech comes at once |
| RawTurn.PartsOfReply | src/api/event.rs:540-562 | scanner and assembler together: the parts of a message with text and speech are what the batch computation makes of that |
| RawTurn.NotesOfReply | src/api/event.rs:563-590 | calls, statistics and shed count depend only on what is reported besides text and speech |
| RawTurn.CutsDoNotMatter | src/api/event.rs:224-323 | recutting the text between two chunks of speech, and moving other reports between tokens, changes neither session nor response, nor what is heard on either channel, as calls or as speech |
| RawTurn.RawRecordedIsReceived | src/api/event.rs:224-323 | from the texts of the backend to the session: the message recorded is the one the consumer would write down, or none exactly when stopped with nothing handed out |
| RawTurn.AssembleText | src/api/event.rs:540-547 | for text alone the message is what the batch computation makes of the whole text scanned at once |
| TurnMeaning.CallIsKept | src/api/event.rs:563-586 | each call of the backend is a call of the message, in order, with its name and arguments, under its own id or one that counts the calls without |
| TurnMeaning.GivenIdsDiffer | src/api/event.rs:481-485 | two calls without an id never get the same, within a turn or across turns |
| TurnMeaning.TurnAnnounced | src/api/event.rs:563-586 | every call is told in three consecutive events with its id, name and arguments, and no such event stands elsewhere |
| TurnMeaning.StatsAreTheLast | src/api/event.rs:587-587 | the statistics of a turn are the last reported, if any |
| TurnMeaning.UsageIsTold | src/api/event.rs:601-607 | usage is told exactly when statistics were reported, once and right before the finish event |
| TurnMeaning.ContentInOrder | src/api/event.rs:636-655 | the parts and then the calls, each in order; one empty text part if and only if there is neither |
| TurnMeaning.ShedIsTheSum | src/api/event.rs:588-589 | what was shed adds up over dropped and compacted messages |
| TurnMeaning.ResponseIsTheTurn | src/api/event.rs:260-294 | the response holds the whole message, the last statistics and the reason, and the session the shed messages |
| TurnMeaning.ThinkingTurn | src/api/event.rs:540-718 | however a reply that thinks is cut into tokens, its parts are the text before the opening marker, the thought and the answer |
| TurnMeaning.ThinkingTurnRecorded | src/api/event.rs:739-758 | and without calls it is recorded as one reply of the visible text with the thought as its reasoning |
| AsyncBridge.StepKeepsInv | src/api/async_turn.rs:214-330 | every step of worker or consumer keeps consumed, channel, hand and backend together equal to the blocking sequence |
| AsyncBridge.AlwaysAPrefix | src/api/async_turn.rs:214-330 | at any point of any interleaving the consumer has seen a prefix of the blocking sequence, the channel holds at most its capacity, and completion happened at most once and only after the last pulled event was consumed |
| AsyncBridge.SendsUnlessFull | src/api/async_turn.rs:217-234 | the channel takes an event exactly while it holds fewer than 64 |
| AsyncBridge.SameAsBlocking | src/api/async_turn.rs:284-330 | when the async stream has ended, events, session, response and failure are those of the blocking iterator |
| AsyncBridge.NeverStuck | src/api/async_turn.rs:232-242 | until the end the worker can go on or a poll yields something |
| AsyncBridge.RunsAreFinite | src/api/async_turn.rs:214-330 | no interleaving has more effective steps than an explicit measure |
| AsyncStream.PullAll | src/api/async_turn.rs:232-242 | the worker hands on everything to be pulled, in order, and returns a finished core |
| AsyncStream.AsyncEventStream.constructor | src/api/async_turn.rs:214-251 | a core that is over stays with the consumer, any other goes to a worker |
| AsyncStream.AsyncEventStream.Settle | src/api/async_turn.rs:285-290 | completes if due and keeps the core for its queue |
| AsyncStream.AsyncEventStream.PollNext | src/api/async_turn.rs:296-329 | one poll step: ready with one more event, ready with the end, or pending without change |
| AgentModel.AsksInCallOrder | src/api/agent.rs:840-846 | one by one, exactly the risky calls are asked about, in call order |
| AgentModel.RiskyNeedsConsent | src/api/agent.rs:840-846 | in a gated run a risky call is always asked about when all before it has happened, and runs if and only if the callback does not object; an objection is its answer and leaves the world alone |
| AgentModel.OthersRunUnasked | src/api/agent.rs:831-852 | any other call, search included, is never asked about and runs if and only if there is such a tool; an unknown one is answered as the mistake of the model |
| AgentModel.RunsItsTool | src/api/agent.rs:641-653 | a call that runs makes the accesses of its own tool, each on what the one before left, and is answered from all it saw |
| AgentModel.AskedAsWritten | src/api/agent.rs:937-948 | every call is recorded with its name, its arguments and its id, or its name for an id |
| AgentModel.ToldExactly | src/api/agent.rs:679-688 | the model is told answers and the failures it can mend, with what content, and no other |
| AgentModel.RunsOnceUnlessDenied | src/api/agent.rs:823-852 | a call runs at most once, and not when denied or unknown |
| AgentModel.BatchKeepsWorld | src/api/agent.rs:618-656 | along parallel-safe calls the world stands still |
| AgentModel.StopsAtFirst | src/api/agent.rs:591-616 | the loop stops at the first call that is the third identical one in a row, counted across rounds, unless an interruption is seen first |
| AgentModel.RepeatsMeansThree | src/api/agent.rs:600-610 | a repetition is three calls in a row with one name and one text of arguments |
| AgentModel.ResultsAnswerAPrefix | src/api/agent.rs:670-697 | results answer a prefix of the calls, one each, in call order, under the call's own recorded id, up to a failure that ends the run |
| SortedResults.SortedIsNumbered | src/api/agent.rs:670-670 | however results came in, sorting by position gives call order |
| AgentRound.AsksTheSame | src/api/agent.rs:751-775 | asking before anything of the batch has run is asking as if everything before had |
| AgentRound.DenialIsNeverTold | src/api/agent.rs:689-695 | a denial ends the run and the results stop short of the denied call |
| AgentRound.ResultsStopAtFatal | src/api/agent.rs:671-697 | exactly the results before the first failure that ends the run are appended |
| AgentRound.EndsExactly | src/api/agent.rs:671-697 | a round lets the run go on if and only if no answer is a failure the model cannot mend, and otherwise ends it with the first such |
| AgentRound.WindowShowsRepeats | src/api/agent.rs:605-610 | the sliding window detects a repetition exactly when the whole history ends in one |
| AgentRound.AgentRun.Approve | src/api/agent.rs:840-846 | asks the callback exactly for gated risky calls |
| AgentRound.AgentRun.Dispatch | src/api/agent.rs:823-852 | resolves, gates and runs one call |
| AgentRound.AgentRun.ApproveBatch | src/api/agent.rs:751-775 | all approvals of a batch in call order; denials become results, the rest are to run |
| AgentRound.AgentRun.JoinAll | src/api/agent.rs:781-803 | for every interleaving of the batch the answers are the sequential ones, in list order |
| AgentRound.AgentRun.RunBatch | src/api/agent.rs:737-820 | environment and results after a batch are those of one call at a time |
| AgentRound.AgentRun.Watch | src/api/agent.rs:605-610 | remembers the call and fires exactly on a repetition |
| AgentRound.AgentRun.RunSolo | src/api/agent.rs:625-653 | a solo call runs where its turn is |
| AgentRound.AgentRun.CallLoop | src/api/agent.rs:587-668 | batched and solo calls together come to sequential dispatch up to where the loop stops |
| AgentRound.AgentRun.AppendResults | src/api/agent.rs:671-697 | appends in call order up to the first failure that ends the run |
| AgentRound.AgentRun.RunRound | src/api/agent.rs:577-697 | a round leaves world, approvals, runs and transcript as if its calls had been dispatched one by one |
| AgentLoop.Steering.Push | src/api/agent.rs:148-152 | queued behind what waits |
| AgentLoop.Steering.Drain | src/api/agent.rs:159-164 | hands over everything in push order and empties the queue |
| AgentLoop.Runner.Deliver | src/api/agent.rs:506-508 | waiting messages become user messages at a boundary, in order |
| AgentLoop.Runner.Shape | src/api/agent.rs:557-574 | with nothing waiting the answer stands, or one more turn is asked to shape it; what arrives then waits |
| AgentLoop.Runner.Round | src/api/agent.rs:577-697 | a round comes to what its calls one by one come to, delivers no steered message and keeps those that arrive |
| AgentLoop.Runner.TakeStep | src/api/agent.rs:503-697 | one step comes to what `StepOf` says: it delivers, lets the model write, and ends, goes on or runs a round |
| AgentLoop.Runner.RunWith | src/api/agent.rs:491-704 | on any transcript and under any interleaving of its batches the run comes to the end, the transcript, the world, the approvals and the queue of the run that dispatches one by one; everything steered in is queued behind what waited, and what was delivered of it, in order and once, is exactly the new user messages; what the model wrote in each turn stands once and in order; a turn without calls ends the run unless something was steered in; no more than the step budget of turns; the counted tokens stop the run at the first turn that reaches the budget; no turn begins past the deadline; a finished run leaves nothing waiting but what arrived while its answer was shaped |
| AgentLoop.StepsEndWhenDone | src/api/agent.rs:544-574 | a turn without calls, with nothing steered in meanwhile, is the last of the run, and so is one that breaks |
| AgentLoop.AnswerDecides | src/api/agent.rs:506-574 | such a turn puts what waited before the answer; only something steered in meanwhile lets the run go on |
| AgentLoop.RoundDecides | src/api/agent.rs:577-697 | a step with calls ends the run exactly as its round does, and otherwise the run goes on from what the round left |
| AgentLoop.RoundCutShort | src/api/agent.rs:595-616 | a round is cut short exactly at the first call at which an interrupting steer is waiting, or at one call too many of a kind |
| AgentLoop.StepsWritten | src/api/agent.rs:545-581 | in the transcript stands, in order, what the model wrote in each turn that counts, and nothing else of its |
| AgentLoop.EndsForAReason | src/api/agent.rs:491-704 | the transcript only grows; a run ends in circles if and only if its last three calls are one and the same, and names that tool; a failed run names a tool its last turn called and an error the model cannot mend; a broken one has the error of the generation |
| AgentLoop.BudgetHoldsExactly | src/api/agent.rs:531-543 | a run its 32-bit counter finds under the budget is under it after every turn if and only if the tokens fit 32 bits |
| AgentLoop.WrapPassesBudget | src/api/agent.rs:531-543 | two turns of 2 to the 31 tokens pass every larger budget unnoticed |
| CivilDate.FormulaCountsDays | benches/bench_table.rs:383-397 | the formula is the count of days through the calendar for every year |
| CivilDate.CountsEveryDay | benches/bench_table.rs:383-397 | the epoch is 0 and the calendar successor of any valid date is one more |
| CivilDate.StrictlyIncreasing | benches/bench_table.rs:383-397 | calendar order is the order of counts, both ways |
| CivilDate.EveryDayHasADate | benches/bench_table.rs:383-397 | every integer is the count of some valid date |
| CivilDate.AcceptedExactly | benches/bench_table.rs:383-397 | for every string: accepted, and with which count, if and only if it begins with three numbers between dashes, a month and a day up to 31, whatever follows a third dash, and the count is at most 2 to the 63 less 719 469 |
| CivilDate.ReadsNumbers | benches/bench_table.rs:385-387 | a part is read as digits, perhaps behind a plus, of at most 64 bits, and as their value |
| CivilDate.OverflowsExactly | benches/bench_table.rs:391-396 | for every string: the evaluation overflows if and only if it reads as such a date with a larger count |
| CivilDate.FitsExactly | benches/bench_table.rs:391-396 | every intermediate value of the formula fits 64 bits if and only if its last sum and its result do |
| CivilDate.FitsBetween | benches/bench_table.rs:391-396 | in terms of dates: if and only if the date lies between the first and the last day that can be counted |
| CivilDate.OverflowWitness | benches/bench_table.rs:391-396 | a date that overflows |
| CivilDate.OverlongDaySpillsOver | benches/bench_table.rs:388-390 | an accepted day that the month lacks is counted into the next month |
| CivilDate.NoOverflow | benches/bench_table.rs:391-396 | no intermediate value leaves 64 bits in any year between those of the first and the last day |
| CivilDate.ReadsRenderedDates | benches/bench_table.rs:383-397 | parsing a rendered date of any year from 0 on gives its calendar count up to the last day that can be counted, then overflows, and beyond 64 bits of year gives nothing |
| Splice.Find | benches/bench_table.rs:348-348 | the first occurrence, or none exactly when there is none |
| Splice.RefusedExactly | benches/bench_table.rs:348-361 | refused exactly for one marker without the other, an end before the first begin, or neither marker nor anchor |
| Splice.SpliceBetween | benches/bench_table.rs:348-354 | with both markers, only what lies between them changes |
| Splice.SpliceInserts | benches/bench_table.rs:358-367 | with neither marker, one section is added before the anchor |
| Splice.OutsideUnchanged | benches/bench_table.rs:346-368 | the text up to the first begin marker and behind the first end marker is unchanged, or without markers the text before and from the anchor on, and in between stands one block |
| Splice.EndInTableGrows | benches/bench_table.rs:346-368 | an end marker in the table makes a second splice grow the text |
| Splice.Idempotent | benches/bench_table.rs:346-368 | splicing again changes nothing if and only if the table has no end marker |
| ResidencyPolicy.MonotoneInFileSize | src/residency_policy.rs:350-380 | a larger file is never estimated smaller, for every backend and layer setting, across the proxy and both clamps |
| ResidencyPolicy.MonotoneExactly | src/residency_policy.rs:350-380 | for any two sizes short of saturation, the larger is never estimated smaller if and only if it has no fewer layers by the proxy |
| ResidencyPolicy.AntitoneInLayers | src/residency_policy.rs:350-380 | from one layer up to all, offloading more never raises the estimate |
| ResidencyPolicy.AntitoneExactly | src/residency_policy.rs:350-380 | raising the number of offloaded layers raises the estimate if and only if it starts from none and the weight of the layers that go, rounded up, is less than the fixed overhead |
| ResidencyPolicy.AllOffloaded | src/residency_policy.rs:366-379 | with everything offloaded only the overhead stays |
| ResidencyPolicy.NotMonotoneBeyondProxy | src/residency_policy.rs:366-366 | one MiB more than the proxy can hold, and the file is estimated far smaller |
| ResidencyPolicy.OffloadingCostsMore | src/residency_policy.rs:371-379 | offloading layers costs more than offloading none if and only if their weight, rounded up to whole MiB, is less than the fixed overhead |
| ResidencyPolicy.FirstLayerCostsMore | src/residency_policy.rs:371-379 | for a single layer that is exactly every file of at most 30 640 MiB |
| ResidencyPolicy.FirstLayerCostsOverhead | src/residency_policy.rs:371-379 | a file for which one layer costs more than none |
| ResidencyPolicy.TotalGrows | src/residency_policy.rs:76-111 | a larger window never needs less |
| ResidencyPolicy.ContextInBytes | src/residency_policy.rs:89-93 | short of 64 bits the context charged covers the growth at that window for all sessions, by less than a MiB too much |
| ResidencyPolicy.WorkingInBytes | src/residency_policy.rs:78-88 | the working memory covers what the model takes beyond its file, at least 500 MiB, and another GiB for vision, by less than a MiB too much |
| ResidencyPolicy.TotalInBytes | src/residency_policy.rs:76-105 | a budget that covers the total covers every byte needed, and one that does not is less than two MiB above that |
| ResidencyPolicy.Windows | src/residency_policy.rs:144-151 | automatic sizing begins at 4096 or the trained context and ends at 2048 or below |
| ResidencyPolicy.DraftInBytes | src/residency_policy.rs:207-234 | a draft is charged its weights once and context and working memory for every session |
| ResidencyPolicy.EstimateAddsUp | src/residency_policy.rs:99-105 | the total is the saturated sum of the parts |
| ResidencyPolicy.Candidate | src/residency_policy.rs:136-155 | an explicit context is kept; an automatic one is the initial window if that fits and else the smallest, and fits whenever the smallest window does |
| ResidencyPolicy.Select | src/residency_policy.rs:113-134 | accepted exactly when the plan fits; an automatic request is refused exactly when the smallest window does not fit; in bytes, an accepted plan has room for all its sessions and a refused one would have had less than two MiB to spare |
| ResidencyPolicy.PlanGguf | src/residency_policy.rs:201-257 | with a draft added back an accepted plan is within the original budget, its parts are target plus draft, its total their sum short of saturation, and acceptance is exact; in bytes, the budget has room for target and draft with all sessions |
| ResidencyPolicy.SaturatedTotal | src/residency_policy.rs:103-105 | at 64 bits a saturated total is less than the sum of its parts |
| Continuity.Session.Repair | examples/continuity.rs:155-189 | the backward in-place walk leaves every message followed by the results it is owed |
| Continuity.EveryCallAnswered | examples/continuity.rs:155-189 | after it every tool call has a message with its id |
| Continuity.StandInsSayWhy | examples/continuity.rs:164-186 | whatever was inserted is the result of a tool that says the session ended before the call ran, for a call without one |
| Continuity.OriginalsSurviveInOrder | examples/continuity.rs:163-186 | original messages survive in order, each followed by nothing but its own inserted results |
| Continuity.PositionsCoverAll | examples/continuity.rs:163-186 | the repaired transcript holds nothing else |
| Continuity.OwedInCallOrder | examples/continuity.rs:164-172 | the inserted results are for exactly the unanswered calls |
| Continuity.OwedPartByPart | examples/continuity.rs:164-186 | and stand in call order |
| Continuity.UnchangedExactlyWhenAnswered | examples/continuity.rs:157-175 | a transcript is left alone if and only if every call was answered |
| Continuity.Idempotent | examples/continuity.rs:155-189 | repairing again changes nothing |
| Router.RankTransitive | src/router.rs:232-240 | the ranking is transitive |
| Router.RankTotal | src/router.rs:232-240 | it is irreflexive and asymmetric, and ties only on equal memory and id |
| Router.BestIsStrongest | src/router.rs:210-240 | the best slot is a peer that has the model and the memory for its build, and none such has more video memory, at equal video memory more memory, or at equal both an id that comes first in the dictionary |
| Router.BestRemotePeer | src/router.rs:180-200 | nothing exactly when no peer can host, else the first of the hosts that no host outranks, which is the strongest |
| Router.JustifiedIsSound | src/router.rs:122-169 | in terms of the fleet: this device when it can and has the model or is in a hurry, else the strongest peer, else this device if it can, else nobody |
| Router.Route | src/router.rs:122-169 | every decision is justified and sound, and fallback is returned exactly when neither this device nor a peer can host |
| Router.WinnerDecides | src/router.rs:122-240 | when all unbeaten hosts are one record, any two orders of the peers lead to the same decision |
| Router.OrderIndependentExactly | src/router.rs:122-240 | the decision is the same for every order of the peers if and only if it is settled locally before or all hosts that no host outranks are the same record |
| Router.OrderDoesNotMatter | src/router.rs:122-240 | with distinct ids it is the same for every order |
| Router.SharedIdDependsOnOrder | src/router.rs:239-239 | for two different records under one id and of one size it depends on the order |

## Left out

- ReplyScanner.ReplyStateMachine.PushEmit: does not model the token counters and the count of leaked special tokens, which are telemetry.
- Assembly.Assembler.TakeCall: does not model the parsing of argument text as JSON; the text is kept.
- Assembly.ReasonFor: does not model the text of other finish reasons, only their name.
- EventStreams.StreamCore.Complete: does not model `chat::settle` or backend bookkeeping; a session is its messages, whether it is open, and its shed count.
- AsyncStream.AsyncEventStream.PollNext: does not model a worker that panics.
- Continuity.Session.Repair: does not model the trimming to round boundaries that `Session::edit` applies afterwards.
- ResidencyPolicy.PlanGguf: does not model reading model files, nor the variant that keeps a refused plan.
- Dropping a stream or an executor before its end, and finishing an async stream: only polling to the end is modelled.
- What an agent run reports besides its end and the text of a finished answer: merged statistics, counts of dropped messages, the text so far of a run that does not finish. Images of the goal.
- The duration in the message of a tool that timed out.
- Timeouts of operations, wall-clock measurements and observer callbacks.
- The search for deferred tools is a tool that changes the world; how it ranks is not modelled.
- Slot bookkeeping in `src/residency.rs`, hardware probes, the zoo's table, backends, FFI, files, network, rendering of benchmark tables.
