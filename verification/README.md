# AegisGo: a verified model of its protocols and compilers

AegisGo answers operational prompts: deterministic rules first, a language model only when they miss,
and a human in front of anything dangerous. Around that sit a Telegram transport with a durable inbox,
a single-writer SQLite store, a background job manager, a rule dialect that can be exported and replayed,
a miner that turns prompts into patterns, a forecast and a log watchdog. This project models the parts
of it where correctness depends on interleavings, on two pieces of code agreeing, or on exact arithmetic,
and proves what they are for.

Code that changes state step by step appears as classes and methods with loops, each proved against a
specification function; concurrent code appears a second time as a state machine whose steps are the
atomic statements of the source, and the main theorems speak about every list of steps. A step that is
not enabled changes nothing, so "every list" covers every schedule, with crashes and failing writes in it.

`dafny verify dfyconfig.toml` checks everything.

| file | what it holds |
|---|---|
| `Common.dfy`, `Text.dfy` | options; trimming, splitting, fields, joining, decimals |
| `Inbox.dfy`, `Poll.dfy`, `Dispatch.dfy` | inbox rows, acknowledgement scan, claim and send |
| `Commands.dfy`, `Rounds.dfy` | what each kind of text gets; the code's poll round and row processing as runs of the protocol |
| `Delivery.dfy`, `EngineRuns.dfy`, `Cursor.dfy` | the delivery protocol over all runs: answers and command effects, engine runs, and the acknowledgement cursor |
| `TokenBucket.dfy` | the per-chat throttle |
| `Batcher.dfy` | the write queue, its transactions, answers, and shutdown |
| `Jobs.dfy` | the job manager under every interleaving of its lock sections |
| `RuleDialect.dfy`, `RegisterRules.dfy` | printing, parsing, exporting and re-importing rules |
| `Normalize.dfy`, `Miner.dfy` | prompt shapes, and the patterns mined from them |
| `Lifecycle.dfy`, `Engine.dfy` | promotion and demotion, and the two engine pipelines |
| `Approvals.dfy`, `Notifier.dfy` | the approval ledger, the gate, the notifier |
| `Forecast.dfy` | least squares, smoothing, and the forecast built on them |
| `Splice.dfy` | splicing captures into argument templates |
| `Watchdog.dfy` | reading a growing log, and alerting on it |

## Where the code and its documentation differ

The code is modelled as it is; each difference is a lemma.

- A send that fails releases its claim "so a redelivery can retry" (`internal/telegram/dispatcher.go:290-291`).
  A redelivery finds the row already there and not pending, so nothing retries it, except a worker that
  read the row before: `Delivery.RetryIffStaleCopy`; `Delivery.ReleasedForGood` is a run that ends so.
- A command takes effect while its answer is computed, which is before the claim, so two workers that read
  the same row both carry it out: `Delivery.EffectAgainIff`, `Delivery.TwoEffectsOneAnswer`.
- "Idempotency first" (`internal/telegram/dispatcher.go:246-247`): behind the claim, the engine still runs twice for a known
  command whose message fails, because its claim is given back after the run: `EngineRuns.EngineOnceIff`, `EngineRuns.EngineAgainIff`.
- The poll cursor is meant to pass only processed updates. An update whose enqueue failed has no row to
  stop at: `Poll.AckSafeIffAllStored`.
- A cursor read that fails counts as 0 (`internal/telegram/inbox.go:146`), so updates at or below the cursor
  are fetched again; one whose first enqueue failed then takes the cursor back with it: `Cursor.MonotoneIff`,
  `Cursor.MovesBack`. With five hundred such rows pending, a newer update is passed unprocessed. When a round does
  that is `Cursor.PassesIff`, under which faults a run can is `Cursor.SafetyIff`, and `Cursor.WindowTooSmall` is such a run.
- Shutdown drains the queue but answers only failures (`Batcher.AnsweredIff`, `Batcher.DrainedUnanswered`), and
  a write that passed the closed check before `Close` can be queued after the drain and never be decided:
  `Batcher.NoneStrandedIff`, `Batcher.LateWriteStranded`.
- Importing a batch of rules is called one atomic batch. It writes row by row and goes live last, so a tool that is
  not addable, a failing insert, a failing reload or a rejected swap leaves rows behind: `RegisterRules.AtomicIff`,
  `RegisterRules.HalfImported`, `RegisterRules.SwapLeavesRows`.
- The gated action is said to receive exactly the payload that was approved (`internal/tools/hitl.go:80-81`). It
  receives a context, and runs on what it has captured: `Approvals.ShownIsRunIff`, `Approvals.RegisterRunsUnseen`.
- An approval granted after its gate gave up is recorded as approved, and runs nothing: `Approvals.RunsIff`,
  `Approvals.LateApproval`.
- A mined pattern is meant to cover its source prompt. It does not when a number in it is not all digits, nor
  when the pattern has a quoted slot and the prompt no double quote: `Miner.MinedMatchesSource`, `Miner.SpansMatchSource`,
  `Miner.FractionNeverMatches`, `Miner.OtherQuotesNeverMatch`, `Miner.SingleQuotesNeverMatch`.
- Cancel reports "nothing issued" only for finished jobs, says its comment. It also does for a running job
  whose `Start` has not stored its cancel function yet: `Jobs.CancelRefusedIff`, `Jobs.RunningRefused`.
- The notifier announces every pending approval once. Fifty older undecided ones hold back all newer
  ones, and with more than fifty pending at the start the rest are announced as new: `Notifier.Starved`,
  `Notifier.StarvedRun`, `Notifier.PrimedAllIff`.
- The forecast summary says "ALREADY at/over threshold" for a flat or falling metric below the threshold,
  because the buckets-to-threshold field keeps its zero value: `Forecast.FalseAlarmIff`.
- `$10` in an argument template is the first capture followed by a zero: `Splice.AgreeIff`, `Splice.TenthGroupIsTheFirst`.
- The quoted form `"$1"` is said to splice JSON-escaped content (`internal/router/router.go:228-229`). The bare pass that
  follows splices the raw capture into it wherever the capture spells `$1`, also in the template the miner
  writes: `Splice.MinedTemplateIff`, `Splice.SplicedIntoItself`, `Splice.CaptureIsSplicedAgain`.
- A line that is half written when the log is polled is handled as two lines: `Watchdog.LinesCut`, `Watchdog.HalfLine`.
- The wired log and watch commands run on into the end of the dispatch, which attempts a second answer: `Dispatch.AttemptShape`.

## Model

| member | source | states |
|---|---|---|
| `InboxTable.OldestFacts` | internal/telegram/inbox.go:82-99 | the pending window holds the smallest ids in ascending order, is full whenever it leaves one out, and leaves out only larger ones |
| `InboxTable.TakeOldest` | internal/telegram/inbox.go:82-99 | reading "order by id, limit n" row by row yields that window |
| `InboxTable.Inbox.Enqueue` | internal/telegram/inbox.go:47-78 | a known update id changes nothing and reports so; a new one gets a pending, unclaimed row |
| `InboxTable.Inbox.Pending` | internal/telegram/inbox.go:82-103 | the oldest pending ids, at most n |
| `InboxTable.Inbox.ClaimReply` | internal/telegram/inbox.go:107-121 | the compare-and-set wins exactly on a row nobody has claimed, and marks it done in the same write |
| `InboxTable.Inbox.MarkStatus` | internal/telegram/inbox.go:124-129 | only the status of that row changes |
| `InboxTable.Inbox.FailAndReopen` | internal/telegram/inbox.go:135-139 | one write sets the row failed and clears the claim |
| `Poll.PollLoop.Advance` | internal/telegram/poll.go:119-144 | the scan acknowledges up to the first update of the batch that is still pending; a failing read or write, or nothing before it, leaves the cursor alone |
| `Poll.PollLoop.Round` | internal/telegram/poll.go:83-112 | after a round the table holds its old rows, unchanged, and a pending, unclaimed row for each offered update that could be stored, the first under its id; only then does the cursor move |
| `Poll.RecordedMeans` | internal/telegram/poll.go:87-96 | what a batch leaves in the table, said of ids and rows: the old rows, and one new row per new id of which an enqueue succeeded |
| `Rounds.RoundIsRun` | internal/telegram/poll.go:87-144 | a poll round nobody interrupts is a run of the delivery protocol: the same table and the same cursor |
| `Poll.AckMeaning` | internal/telegram/poll.go:130-141 | the acknowledged id is the one right before the first pending update |
| `Poll.ScanMeaning` | internal/telegram/poll.go:119-144 | against the whole table: the scan stops right before the first pending update of the batch, unless five hundred pending rows are older, and then it acknowledges the whole batch |
| `Poll.AckPassesIff` | internal/telegram/poll.go:119-144 | the acknowledgement gets past the first pending update of a batch if and only if five hundred pending rows are older than it |
| `Poll.AckSafeIffAllStored` | internal/telegram/poll.go:88-92 | whatever has been finished meanwhile, the acknowledged part of a batch was recorded if and only if no enqueue of it failed |
| `Delivery.AtMostOneAnswer` | internal/telegram/dispatcher.go:246-341 | over every run, with any number of workers, redeliveries, stale row copies, failed sends, late releases and crashes, at most one answer is delivered per update |
| `Delivery.ClaimInvStep` | internal/telegram/inbox.go:107-139 | every step keeps the tie between the claim flag, the one worker or queued release that owns the claim, and the number delivered |
| `Delivery.RetryIffStaleCopy` | internal/telegram/dispatcher.go:290-342 | in any reachable state a released update is answered on some continuation if and only if a worker still holds a copy of its row |
| `Delivery.AbandonedForever` | internal/telegram/inbox.go:215-252 | without such a copy nothing ever delivers it |
| `Delivery.ReleasedForGood` | internal/telegram/dispatcher.go:326-342 | a run to a released row with no copy left, never answered on any continuation |
| `Delivery.EffectAgainIff` | internal/telegram/dispatcher.go:122-234 | in any reachable state a command whose row is no longer pending is carried out again on some continuation if and only if a worker holds a copy of the row it has not begun on |
| `Delivery.TwoEffectsOneAnswer` | internal/telegram/dispatcher.go:122-234 | a run with two workers in which one command is carried out twice and answered once |
| `EngineRuns.EngineOnceIff` | internal/telegram/dispatcher.go:234-288 | with two workers or more, the engine runs at most once for an update on every run if and only if no attempt of its plan answers a known command |
| `EngineRuns.EngineAgainIff` | internal/telegram/dispatcher.go:234-288 | in any reachable state the engine runs again for a released update on some continuation if and only if a worker holds a copy of its row with an engine attempt left |
| `Cursor.CursorSafety` | internal/telegram/poll.go:55-144 | over every poll run, with crashes and failing writes and reads, every offered update at or below the cursor has a row that is no longer pending, unless its enqueue failed; it needs fewer than five hundred rows made behind the cursor |
| `Cursor.WindowTooSmall` | internal/telegram/poll.go:120-124 | for batches of any size, a poll run with five hundred such rows that passes a recorded, unprocessed update |
| `Cursor.PassesIff` | internal/telegram/poll.go:119-144 | in any reachable state, finishing the round takes the cursor past a recorded, unprocessed update if and only if its batch holds one above the cursor and five hundred pending rows are older than the first pending one of the batch |
| `Cursor.SafetyIff` | internal/telegram/poll.go:115-144 | for batches of any size, every run keeps the recorded updates at or below the cursor processed if and only if failing enqueues and failing cursor reads do not both occur; the same holds of the updates stored when first offered |
| `Cursor.CursorNeverSkips` | internal/telegram/poll.go:73-144 | when every enqueue succeeds, nothing at or below the cursor is unprocessed |
| `Cursor.CursorMonotone` | internal/telegram/poll.go:130-144 | while no row is made behind it, the cursor never moves back |
| `Cursor.BackIff` | internal/telegram/poll.go:119-144 | in any reachable state, finishing the round moves the cursor back if and only if the first pending update of its batch lies at or below the cursor and is not the first of the batch |
| `Cursor.MonotoneIff` | internal/telegram/inbox.go:143-156 | the cursor is monotone over all poll runs if and only if failing enqueues, failing cursor reads and batches of more than one update do not all occur |
| `Cursor.MovesBack` | internal/telegram/poll.go:88-144 | for batches of any size from two on, a run that moves it back: a failed enqueue, the batch acknowledged, a failed cursor read, the batch served and stored again |
| `Cursor.WindowReachesBatch` | internal/telegram/poll.go:120-128 | the bounded read of pending rows contains a batch member at or before any pending member of the batch, so the scan stops in time, unless as many rows as it holds were made behind the cursor |
| `Dispatch.Dispatcher.ClaimAndSend` | internal/telegram/dispatcher.go:303-341 | claim, send, and a rollback exactly when the send fails and the rollback can be written; a claim that errors sends nothing |
| `Dispatch.Dispatcher.ClaimAndRoute` | internal/telegram/dispatcher.go:246-288 | a known command: claim, engine run, send; a failed send gives the claim back although the engine has run |
| `Dispatch.Dispatcher.ClaimAndEdit` | internal/telegram/dispatcher.go:246-280 | claim, placeholder, engine run, edit, and a fresh message when the edit fails; only a failed placeholder rolls back, before the engine runs, and a claim that errors sends nothing |
| `Dispatch.Dispatcher.Process` | internal/telegram/dispatcher.go:106-289 | which attempts an update gets, in order, how often its command is carried out whatever becomes of the claims, and that an update from a stranger or without content is marked skipped; the tables of `Commands` say which and how often for every kind of text |
| `Commands.OutsideTable` | internal/telegram/dispatcher.go:106-130 | a stranger's update, one without a chat and one without content get no attempt and carry nothing out, whatever they hold; a button press from an allowed chat acts once and is answered once |
| `Commands.BuiltinTable` | internal/telegram/dispatcher.go:132-210 | commands that only report carry nothing out; those that schedule, cancel or decide do so once; the log commands run on into the gated and routed commands when they are wired, and so do the watch commands, which act themselves |
| `Commands.OtherTable` | internal/telegram/dispatcher.go:212-289 | any other text: a decision on a request, with or without the slash, and a gated action act once; known commands go to the engine, unknown ones get a reply, anything without a slash is a prompt; none of these acts |
| `Commands.FirstWordMeans` | internal/telegram/dispatcher.go:228-231 | the word a command is looked up by is the text up to its first blank |
| `Commands.EagerIff` | internal/telegram/dispatcher.go:106-289 | an update carries something out if and only if the delivery protocol counts it as eager, which is said of its text and the wiring alone |
| `Rounds.ProcessIsRun` | internal/telegram/dispatcher.go:106-341 | what the dispatcher does to a row nobody else touches is a run of the delivery protocol: the same table, answers and engine runs, and one effect if and only if the update acts |
| `Dispatch.AttemptMeans` | internal/telegram/dispatcher.go:246-341 | what an attempt comes to, said of the row before it: an answer goes out, the engine runs and the claim is given back only when the claim reached an unclaimed row and its answer came back |
| `Dispatch.AttemptShape` | internal/telegram/dispatcher.go:106-289 | text that begins with a slash never gets a placeholder, and only the wired log and watch commands try twice |
| `Dispatch.SoloAttempt` | internal/telegram/dispatcher.go:246-341 | an attempt nobody interferes with does to the table, the answers and the engine runs what the worker steps of the protocol do |
| `TokenBucket.Throttle.Try` | internal/telegram/dispatcher.go:513-545 | one locked pass refills, then grants exactly when a whole token is there, and asks for the missing part otherwise |
| `TokenBucket.Throttle.WaitChat` | internal/telegram/dispatcher.go:513-545 | the loop grants, refuses past its deadline or is cancelled as specified, with its own clock readings for the start, each pass and each refusal test, and other senders taking tokens while it sleeps |
| `TokenBucket.RateBound` | internal/telegram/dispatcher.go:500-545 | grants to one chat in any window of T seconds number at most 3 + T, for any interleaving of senders |
| `TokenBucket.RateBoundIsTight` | internal/telegram/dispatcher.go:500-511 | four grants in one second do occur |
| `TokenBucket.LoneWaiter` | internal/telegram/dispatcher.go:513-545 | a sender without rivals asks for at most one second of sleep and is refused if and only if the refusal test is read so late that the sleep would end behind the deadline, which takes over four seconds |
| `TokenBucket.WaitEnds` | internal/telegram/dispatcher.go:513-545 | a wait is refused only at a test that would sleep past the deadline, and ends without token or refusal only when it is cancelled |
| `Batcher.ExecIsTransaction` | internal/store/store.go:164-180 | a transaction is all or nothing: a fault at any statement or at the commit leaves no effect |
| `Batcher.TransactionOne` | internal/store/store.go:164-180 | a transaction of nothing changes nothing, one of a single write is that write's statement |
| `Batcher.TransactionConcat` | internal/store/store.go:164-180 | a transaction of two lists is that of the second on the outcome of the first, and fails if the first fails |
| `Batcher.Store.Enqueue` | internal/store/store.go:95-107 | refused when closed or full, otherwise appended |
| `Batcher.Store.Collect` | internal/store/store.go:150-162 | what is queued, up to 64 in all, in order |
| `Batcher.Store.Apply` | internal/store/store.go:164-180 | the database becomes the result of the whole batch, or stays; a single write that nothing disturbs leaves exactly what its statement makes of the database |
| `Batcher.Store.Cycle` | internal/store/store.go:129-148 | one pass applies a batch and gives every waiter in it the outcome of its transaction |
| `Batcher.Store.DrainRemaining` | internal/store/store.go:182-199 | shutdown applies all that is queued and answers failures only |
| `Batcher.BatcherRefinesFold` | internal/store/store.go:84-199 | over every interleaving: accepted writes are decided, in flight and queued ones in order, batches hold 1 to 64, and the database is the fold of the committed batches |
| `Batcher.DatabaseIsCommitted` | internal/store/store.go:84-199 | over every interleaving the database is what the statements of the committed writes make of it, one after the other |
| `Batcher.QueueBound` | internal/store/store.go:95-107 | over every interleaving at most 4096 writes are queued |
| `Batcher.QueueStep` | internal/store/store.go:95-107 | a send is refused if and only if 4096 writes are queued, and a caller who finds the store closed never sends |
| `Batcher.NilAckMeansCommitted` | internal/store/store.go:114-148 | the batcher's answer: without error that write committed, with an error it did not; a caller who stops waiting gets its context's error instead, which says nothing |
| `Batcher.FlushIsBarrier` | internal/store/store.go:243-250 | when a write is answered, it and every write accepted before it are decided |
| `Batcher.AnsweredIff` | internal/store/store.go:182-199 | a decided write that asked for an answer has it unless it committed in the shutdown drain |
| `Batcher.DrainedUnanswered` | internal/store/store.go:182-199 | a run in which a write commits in the drain and its waiter is left without an answer |
| `Batcher.ExitIsFinal` | internal/store/store.go:84-92 | after the batcher has exited nothing is decided or answered |
| `Batcher.DecidedIffBeforeExit` | internal/store/store.go:182-199 | an accepted write is decided if and only if it was accepted before the exit |
| `Batcher.NoneStrandedIff` | internal/store/store.go:84-107 | no accepted write is ever left undecided if and only if at the exit no enqueuer stands between the closed check and the send |
| `Batcher.LateWriteStranded` | internal/store/store.go:95-106 | the run of a write that slips between the closed check and the drain, is accepted and never decided |
| `Batcher.CycleIsRun` | internal/store/store.go:129-180 | the code's uninterrupted pass is a run of the state machine |
| `Batcher.DrainIsRun` | internal/store/store.go:182-199 | the code's uninterrupted shutdown is a run of the state machine that decides everything queued, in order, and exits |
| `Jobs.JobManager.Register` | internal/tools/jobs.go:73-76 | a started job is known and running |
| `Jobs.JobManager.EvictFinishedLocked` | internal/tools/jobs.go:140-145 | the loop drops oldest finished jobs beyond the cap |
| `Jobs.JobManager.Finish` | internal/tools/jobs.go:78-108 | the wrapper's section: the job is done, cancelled or in error as its function and its context say; cancel entry, finish list, eviction |
| `Jobs.OutcomeIsKept` | internal/tools/jobs.go:78-108 | a job that returns is, at once and for as long as it is kept, done if and only if its function did not fail, cancelled if and only if it failed after a cancel that beat the deadline, in error otherwise |
| `Jobs.IssuedIff` | internal/tools/jobs.go:123-137 | over every interleaving a cancel has been issued for a job if and only if some call met it running with its cancel function stored |
| `Jobs.JobManager.StoreCancel` | internal/tools/jobs.go:109-117 | the cancel function is stored only while the job still runs |
| `Jobs.JobManager.Cancel` | internal/tools/jobs.go:123-136 | a cancellation is issued exactly for a running job with a stored cancel function |
| `Jobs.EvictedClosedForm` | internal/tools/jobs.go:140-145 | eviction leaves the newest 256 finishes and removes exactly the jobs of the others |
| `Jobs.ManagerInvariant` | internal/tools/jobs.go:70-145 | over every interleaving: the finish list has no duplicates and holds the last 256 finishes, kept jobs are the unfinished ones and that list, cancel entries belong to running jobs, "cancelled" follows an issued cancel |
| `Jobs.CancelRefusedIff` | internal/tools/jobs.go:117-136 | a known job is refused if and only if it has finished or its Start has not stored its cancel function |
| `Jobs.RunningRefused` | internal/tools/jobs.go:78-117 | a run to a running job that is refused |
| `Jobs.TerminalIsFinal` | internal/tools/jobs.go:78-108 | a terminal status never changes, and an evicted job stays unknown |
| `RuleDialect.ParseLine` | internal/app/addrulegate.go:60-128 | the loops that split, merge regex pipes back and read the fields compute the specified parse, errors included |
| `RuleDialect.AcceptedIff` | internal/app/addrulegate.go:60-128 | a text is read as a rule if and only if its segments have known keys and the last values make a well-shaped name, a pattern that begins with a slash and compiles, a tool, and args that are empty or a JSON object |
| `RuleDialect.RefusedBecause` | internal/app/addrulegate.go:60-128 | which error a refused text gets, in the order of the checks |
| `RuleDialect.PrintThenParse` | internal/router/export.go:63-72 | a printed canonical rule parses back to the same name, pattern, tool and args |
| `RuleDialect.AcceptedIsCanonical` | internal/app/addrulegate.go:60-128 | whatever the parser accepts is canonical |
| `RuleDialect.PrintThenParseIff` | internal/router/export.go:63-72 | a printed addable rule parses back to itself if and only if it is canonical |
| `RuleDialect.RoundTrip` | internal/app/addrulegate.go:60-146 | every accepted text of an addable rule, printed and parsed again, gives the same rule, pipes and equal signs in the pattern included |
| `RegisterRules.RenderExport` | internal/telegram/dispatcher.go:428-456 | the loops that sort live rules into replay lines and reference lines write the message the import theorem is about |
| `RegisterRules.ExportLists` | internal/telegram/dispatcher.go:428-456 | every live rule appears in the export, as a replay line if its tool is addable from chat and as a reference line otherwise |
| `RegisterRules.ParseBatch` | internal/app/registerrulesgate.go:57-79 | the loop that picks the `/addrule` lines, with its errors and its cap of fifty |
| `RegisterRules.BatchMeans` | internal/app/registerrulesgate.go:57-79 | a batch is read if and only if it has between one and fifty `/addrule` lines that all parse, and the rules are theirs in order; otherwise the first line that fails, the cap or the empty batch is the error |
| `RegisterRules.ExportThenImport` | internal/telegram/dispatcher.go:428-456 | importing an export gives exactly the replayable rules in order, past the header and the reference lines |
| `RegisterRules.Gate.Insert` | internal/app/registerrulesgate.go:109-118 | the upsert writes pattern, tool and args, `{}` for none, and enables the row; it keeps origin, state and creation time of a row that exists, and touches no other |
| `RegisterRules.Gate.Run` | internal/app/registerrulesgate.go:103-130 | rules are upserted one by one until one is not addable or its insert fails, in which case its row may have landed all the same; then the reload and the swap may fail |
| `RegisterRules.EndMeans` | internal/app/registerrulesgate.go:103-130 | which end a run comes to: the first tool that is not addable or insert that fails, then the reload, then the swap, else all registered |
| `RegisterRules.BatchClosedForm` | internal/app/registerrulesgate.go:103-130 | whatever faults: each written name ends with its last written line, all other names are untouched, and an old row keeps origin, state and creation time |
| `RegisterRules.ReplayTwice` | internal/app/registerrulesgate.go:103-130 | replaying a batch a second time, at any time and with the same faults, changes nothing |
| `RegisterRules.AtomicIff` | internal/app/registerrulesgate.go:103-130 | a run is all or nothing if and only if it succeeds or stops before its first write: every tool addable, every insert, the reload and the swap in order, or an empty batch, a first tool that is not addable, or a first insert that fails and does not land |
| `RegisterRules.HalfImported` | internal/app/registerrulesgate.go:103-130 | a batch that fails at its second tool after writing its first rule |
| `RegisterRules.SwapLeavesRows` | internal/app/registerrulesgate.go:122-128 | a batch of addable rules whose swap is rejected, with its row kept |
| `Normalize.NumericField` | internal/store/normalize.go:47-60 | the scan with its early exit and digit flag accepts exactly fields of digits, dots and commas with a digit in them |
| `Normalize.NormalizePrompt` | internal/store/normalize.go:9-44 | the quote flag and the in-place field rewriting compute the specified shape |
| `Normalize.CollapseMeans` | internal/store/normalize.go:15-33 | text outside quotes stays, a span from one quote character to the next, of whichever kind, is a placeholder, and an unclosed one swallows the rest |
| `Normalize.SlotMeans` | internal/store/normalize.go:35-44 | a field with a slash or backslash is a path, one of digits, dots and commas with a digit a number, any other stays |
| `Normalize.NormalIdempotent` | internal/store/normalize.go:9-60 | the shape of a shape is itself, for every prompt, unbalanced quotes included |
| `Miner.SynthesizePattern` | internal/miner/miner.go:152-173 | a pattern comes out exactly when there is one path slot, with one element per field |
| `Miner.MatchIsFields` | internal/miner/miner.go:152-173 | whatever text matches a pattern without a quoted slot is, field by field, what the elements accept, and the captures are the fields under capture elements |
| `Miner.FieldsMatch` | internal/miner/miner.go:152-173 | and a text whose fields fit does match |
| `Miner.MinedMatchesSource` | internal/miner/miner.go:152-173 | without quotes, the mined pattern matches its own prompt if and only if every number in it is all digits and no token is a literal placeholder; the only capture is the path token |
| `Miner.UnquotedSlotsIff` | internal/miner/miner.go:152-173 | a pattern without a quoted slot matches its own prompt, quotes or not, if and only if the prompt's fields fit its elements, with the captures those fields give |
| `Miner.SpansMatchSource` | internal/miner/miner.go:152-173 | for prompts whose quoted spans are whole tokens in double quotes, the pattern matches its prompt if and only if every number-like word is all digits and no word is a literal placeholder; the only capture is the path token |
| `Miner.QuotedPathMatches` | internal/miner/miner.go:152-173 | a prompt with quotes inside a path is matched by its pattern |
| `Miner.FractionNeverMatches` | internal/miner/miner.go:152-173 | a prompt with a decimal fraction is never matched by its own pattern |
| `Miner.OtherQuotesNeverMatch` | internal/miner/miner.go:152-173 | a prompt whose pattern has a quoted slot and that holds no double quote is never matched by it |
| `Miner.SingleQuotesNeverMatch` | internal/miner/miner.go:152-173 | a prompt in single quotes that gives such a pattern |
| `Lifecycle.ShadowStore.ShadowStreak` | internal/store/shadow.go:45-65 | the loop over at most 100 rows counts the agreeing suffix, capped at 100 |
| `Lifecycle.ShadowStore.EvaluateLifecycle` | internal/engine/engine.go:458-481 | a divergence demotes and disables, an agreeing streak at the bar promotes, anything else leaves the rule |
| `Lifecycle.LifetimeClosedForm` | internal/engine/engine.go:458-481 | from a fresh shadow rule: active if and only if the agreeing suffix reaches the bar (a bar above 100 never), else shadow if nothing ever diverged, else demoted and disabled |
| `Lifecycle.InterleavedLifetimes` | internal/store/shadow.go:31-70 | with comparisons of many rules interleaved, each rule is where its own history puts it |
| `Engine.HybridEngine.Run` | internal/engine/engine.go:128-176 | early returns and tails leave exactly the audit, shadow, rule and corpus rows and provider calls of the specified run |
| `Engine.HybridEngine.RunStreaming` | internal/engine/engine.go:191-285 | the same for the streaming code, with the chunks emitted and tools collected while the stream is drained |
| `Engine.HybridEngine.Compare` | internal/engine/engine.go:300-317 | the code of a comparison does to the store what `Engine.ComparisonMeans` is about |
| `Engine.ComparisonMeans` | internal/engine/engine.go:300-317 | either pipeline records one comparison if the LLM answers on an evaluated hit, for that rule, agreeing if and only if some update of the stream calls the rule's tool, and none otherwise; a divergence demotes and disables the rule, an agreement leaves or promotes it, and no other rule moves |
| `Engine.AnswerMeans` | internal/engine/engine.go:128-176 | who answers, what the audit row says, and how often LLM and classifier are called |
| `Engine.AnswerText` | internal/engine/engine.go:333-453 | the text and confidence of an answer, by who gives it |
| `Engine.CorpusMeans` | internal/engine/engine.go:359-405 | the corpus row of an answer: the tools called, the tokens spent, and the score they give |
| `Engine.HybridEngine.EmitChunks` | internal/engine/engine.go:319-331 | the slice-advancing loop emits the chunks of `Engine.ChunksConcat` |
| `Engine.ChunksConcat` | internal/engine/engine.go:319-331 | chunks are non-empty, at most 256 long, and concatenate to the text |
| `Engine.PipelinesAgree` | internal/engine/engine.go:128-285 | both pipelines give the same answer, source, rule and confidence and the same audit, shadow, rule and corpus rows and provider calls, tool names compared as sets |
| `Engine.SessionsAgree` | internal/engine/engine.go:128-285 | and so over any sequence of prompts |
| `Engine.SessionLifecycle` | internal/engine/engine.go:300-317 | in a session every rule is where its own comparisons put it, and every prompt left one audit row |
| `Engine.EmittedIsAnswer` | internal/engine/engine.go:191-285 | the chunks concatenate to the answer if and only if the LLM did not fail after emitting text |
| `Engine.KillSwitchIsAbsolute` | internal/engine/engine.go:136-146 | without an LLM neither pipeline calls LLM or classifier, records a comparison or a fallback, or moves a rule |
| `Engine.OneAuditPerRun` | internal/engine/engine.go:333-453 | one audit row per run, with the source, rule and confidence of the answer, and at most one LLM call |
| `Approvals.Ledger.Create` | internal/store/approvals.go:33-46 | a fresh id and a pending row |
| `Approvals.Ledger.DecideApproval` | internal/store/approvals.go:66-81 | the compare-and-set moves a pending row to a verdict, and reports whether it did; other words are refused |
| `Approvals.Ledger.ExpireApprovals` | internal/store/approvals.go:85-93 | exactly the pending rows created before the cutoff expire, and their number is returned |
| `Approvals.Ledger.PendingApprovals` | internal/store/approvals.go:96-115 | the oldest pending ids, with an out-of-range limit read as fifty |
| `Approvals.RunGated` | internal/tools/hitl.go:82-120 | the first decisive look settles the gate, and the action runs once, on what it has captured, if and only if that look is an approval in time |
| `Approvals.JudgeMeans` | internal/tools/hitl.go:89-119 | each outcome of a gate says what its deciding look saw: a cancelled context first, then the deadline, then the row |
| `Approvals.ApprovalSafety` | internal/tools/hitl.go:82-120 | over every interleaving of gates, approvers and sweeper: at most one winning decision, at most one run, only after an approval and never after a denial, on the data of that gate's own action; a gate that ended otherwise ran nothing |
| `Approvals.ShownIsRunIff` | internal/tools/hitl.go:78-111 | in any reachable state, every run a newly opened gate can ever make is on the payload shown if and only if its action captured that payload |
| `Approvals.RegisterRunsUnseen` | internal/app/registerrulesgate.go:83-146 | a run of the gate whose row shows a number of rules and whose action runs on the rules themselves |
| `Approvals.VerdictIsFinal` | internal/store/approvals.go:66-93 | a row leaves pending at most once, and nothing else about it ever changes |
| `Approvals.RunsIff` | internal/tools/hitl.go:89-119 | in any reachable state a request is or can still be carried out if and only if it has run, or its gate still waits and its row is pending or approved |
| `Approvals.LateApproval` | internal/tools/hitl.go:95-100 | the run of an approval after the gate's deadline: granted, and nothing runs, whatever follows |
| `Approvals.GateMatchesLoop` | internal/tools/hitl.go:89-119 | a gate of the protocol acts on what its loop would see, and runs only on an approved row |
| `Notifier.Notifier.Prime` | internal/telegram/notify.go:100-116 | the mark rises to the largest id read; a failed read changes nothing |
| `Notifier.Notifier.Tick` | internal/telegram/notify.go:118-138 | each id above the mark is announced, which means a message is attempted, as the mark rises to it |
| `Notifier.NotifierComplete` | internal/telegram/notify.go:100-138 | whatever is created and decided between polls: no message is attempted twice for an id as new, none for one that was primed, and every pending id at or below the mark was one or the other |
| `Notifier.TickAnnouncesIff` | internal/telegram/notify.go:118-138 | a poll announces an unseen pending id if and only if fewer than fifty pending ones are older |
| `Notifier.Starved` | internal/telegram/notify.go:119-135 | fifty older undecided requests hold back a newer one for as long as they stay |
| `Notifier.StarvedRun` | internal/telegram/notify.go:119-135 | fifty-one requests in a row: the last is not announced while the others stay undecided |
| `Notifier.PrimedAllIff` | internal/telegram/notify.go:100-116 | all that is pending at the start counts as seen if and only if it fits the window |
| `InboxTable.InWindowIff` | internal/store/approvals.go:96-115 | an id is in the window if and only if fewer than n members are smaller |
| `Forecast.LeastSquares` | internal/opsforecast/forecast.go:214-246 | the accumulation loops compute the fit the lemmas below are about |
| `Forecast.DenominatorPositive` | internal/opsforecast/forecast.go:226-229 | the denominator is n²(n²-1)/12, hence positive if and only if there are two points |
| `Forecast.NormalEquations` | internal/opsforecast/forecast.go:230-231 | residuals sum to zero and are orthogonal to the index |
| `Forecast.FitIsOptimal` | internal/opsforecast/forecast.go:230-231 | no line has a smaller squared error, and only the fit itself has the same |
| `Forecast.RSquaredRange` | internal/opsforecast/forecast.go:232-246 | r² lies in [0, 1] and is 1 if and only if the points are on a line |
| `Forecast.LinearSeries` | internal/opsforecast/forecast.go:214-246 | a perfectly linear series gets its own slope and intercept back |
| `Forecast.Ewma` | internal/opsforecast/forecast.go:249-258 | the loop computes the weighted recurrence `Forecast.SmoothedWithin` is about, seeded with the first value |
| `Forecast.SmoothedWithin` | internal/opsforecast/forecast.go:249-258 | the smoothed level stays within any bounds of the series |
| `Forecast.SmoothedStep` | internal/opsforecast/forecast.go:249-258 | one more value moves the level by the smoothing share of the way to it |
| `Forecast.LevelStep` | internal/opsforecast/forecast.go:281-290 | one more bucket moves the forecast's level by two fifths of the way to it |
| `Forecast.ForecastMetric` | internal/opsforecast/forecast.go:263-337 | trend, confidence and time to threshold from the fit and the level; fewer than three buckets is an error |
| `Forecast.TrendMeans` | internal/opsforecast/forecast.go:263-307 | which trend is reported: stable for a slope weak against the level, else volatile for a poor fit, else the slope's sign |
| `Forecast.HitIff` | internal/opsforecast/forecast.go:322-336 | the threshold counts as hit within a day if and only if the level is already at it, or rises and is projected to meet it in time |
| `Forecast.ConfidenceIs` | internal/opsforecast/forecast.go:308-320 | confidence from fit and number of buckets |
| `Forecast.ConfidenceRange` | internal/opsforecast/forecast.go:308-320 | confidence is between 9 and 100 before clamping, and 100 if and only if eight buckets or more are exactly on a line |
| `Forecast.EtaMeetsThreshold` | internal/opsforecast/forecast.go:322-336 | a positive time to threshold exists if and only if a rising level is below it, and is where the straight projection meets it |
| `Forecast.FalseAlarmIff` | internal/opsforecast/forecast.go:340-354 | the summary claims the threshold reached although the level is below it if and only if the threshold is positive, the slope not, and the level below |
| `Forecast.SteadyTrend` | internal/opsforecast/forecast.go:263-320 | eight or more buckets on a line get their slope, full confidence, and never a volatile or opposite trend |
| `Forecast.SteadyTrendIff` | internal/opsforecast/forecast.go:263-320 | on a line the trend is rising or falling if and only if the slope is strong against the level, by its sign |
| `Splice.SpliceArgs` | internal/router/router.go:235-246 | replacing group after group, quoted form before bare form, gives the text the one-pass theorems are about |
| `Splice.LoopIsOnePass` | internal/router/router.go:235-246 | for any number of groups, captures without `$` and, where a bare reference uses them, without quotes, and templates where each `$` starts a reference, no bare one can come to stand between two quotes and no live one has several digits, the loop equals one left-to-right pass |
| `Splice.LoopIsCodePass` | internal/router/router.go:235-246 | for any number of groups the loop equals one pass over the template as the code reads it, one digit to a reference |
| `Splice.AgreeIff` | internal/router/router.go:235-246 | loop and one pass agree for all such captures of n groups if and only if no reference of several digits has a first digit that names a group |
| `Splice.MinedTemplateIff` | internal/router/router.go:228-246 | the miner's template `{"path":"$1"}` gives exactly the escaped capture if and only if the capture does not contain `$1` or is `$1` itself |
| `Splice.SplicedIntoItself` | internal/router/router.go:228-246 | the capture `a$1` comes out of the miner's template as `"aa$1"` |
| `Splice.TokensRender` | internal/router/router.go:235-246 | the one-pass reading of a template loses nothing of its text |
| `Splice.TokensMean` | internal/router/router.go:235-246 | how the one-pass reading takes a template: a reference between quotes is quoted, any other takes all the digits that follow it, and its number is the one they write |
| `Splice.TenthGroupIsTheFirst` | internal/router/router.go:235-246 | with ten groups or more, a reference to the tenth is spliced as the first followed by a zero |
| `Splice.CaptureIsSplicedAgain` | internal/router/router.go:235-246 | a capture that spells a later reference is replaced by that group's capture |
| `Watchdog.TailFile` | internal/logwatch/watchdog.go:155-191 | what a poll reads: nothing for a missing or irregular file, from the head after a shrink, otherwise what was gained |
| `Watchdog.TailMeans` | internal/logwatch/watchdog.go:155-191 | the same said of the file: from its head when it is smaller than last seen, else from the offset, all of it unless the read is cut short, and nothing moved by a path that is no regular file |
| `Watchdog.TrimCrMeans` | internal/logwatch/watchdog.go:186-190 | a line loses its trailing carriage returns and nothing else |
| `Watchdog.Watch.Handle` | internal/logwatch/watchdog.go:107-122 | a match is counted; within the cooldown it is suppressed, otherwise its line, cut to three hundred characters, is sent if the buffer has room and dropped if not, and a new cooldown begins |
| `Watchdog.AlertsMean` | internal/logwatch/watchdog.go:107-122 | every alert sent in a poll carries a matching line of that poll and the time it was handled, when there was room |
| `Watchdog.Watch.Poll` | internal/logwatch/watchdog.go:103-125 | a poll moves size and offset and handles each matching new line in order |
| `Watchdog.WatchIsSound` | internal/logwatch/watchdog.go:103-125 | over any polls: matches are sent, suppressed and dropped ones, tried alerts are a cooldown apart, and without a cooldown none is suppressed |
| `Watchdog.NoteAllSound` | internal/logwatch/watchdog.go:107-122 | the match counter grows by exactly the matching lines |
| `Watchdog.LinesCut` | internal/logwatch/watchdog.go:186-190 | two polls of a growing file handle exactly its lines if and only if the first ended at a line's start or only carriage returns were still to come |
| `Watchdog.GrowingFile` | internal/logwatch/watchdog.go:155-191 | over any number of polls of a growing file, also when it is missing, cannot be opened or is read in part, the lines handled are exactly the non-empty lines of the part read, each once and in order, if and only if every poll went on from such a boundary |
| `Watchdog.ReadAll` | internal/logwatch/watchdog.go:155-191 | once a poll has read to the end, the part read is the whole file |
| `Watchdog.HalfLine` | internal/logwatch/watchdog.go:186-190 | a line half written at one poll is handled as two |
| `Watchdog.CutNeverLoses` | internal/logwatch/watchdog.go:186-190 | a boundary elsewhere never loses a line: it splits one or strips its leading carriage returns |
| `Watchdog.NewlineIsClean` | internal/logwatch/watchdog.go:186-190 | right behind a newline is such a boundary |

## Left out

- HTTP, gRPC, MCP, provider and Telegram wire clients, the webhook handler, the dashboard and the CLI: plumbing over libraries.
- Regular expressions, JSON, SQLite and contexts: opaque functions, maps and parameters. Only the pattern fragment the miner emits has a matcher; the escaping of a character is any function that leaves `$` and digits as they are and turns nothing else into text that holds a `$` or begins with a digit.
- Rendering of help, status, history and digests; log-analysis tallies; reading buckets out of log text; latencies, traces and time stamps of rows that no decision reads.
- Floating-point rounding in the throttle and the forecast: arithmetic is over exact reals. The overflow of a very long time to threshold when it becomes a duration is not modelled.
- The backoff of the poll loop after an error, and the ticker and wake-up of the workers: a run may take any step at any time.
- Mixing the webhook and the poll transport on one database: the theorems of `Cursor` are about runs without webhook deliveries; `Delivery.AtMostOneAnswer` covers both.
- Delivery.AtMostOneAnswer: a send that reports an error counts as not delivered; a message that went out although its answer was lost is not counted.
- Rounds.ProcessIsRun: the protocol counts one effect for an update that acts; a wired watch command whose word is a gated action as well acts twice, as `Commands.BuiltinTable` says.
- What an answer's computation does besides answering: a command's effect is one event before its claim, and an engine run is one event of the step that sends the first message.
- A sink of the streaming pipeline that fails, and store errors while a shadow comparison is recorded.
- The record, the streak read and the state write of one comparison run as one step; concurrent comparisons of one rule are not interleaved.
- Loading and swapping live rules, beyond whether it fails; a rule's state as the router sees it is part of the decision given to the engine.
- The miner's choice of a dominant tool and its insertion of proposals.
- Reminders of the notifier, its message texts, its sends that fail, and the registry of messages to edit.
- The dry run of a gated action, which is the gate with an action that does nothing.
- Ledger time stamps are points on one ordered clock; the source compares their text, which orders times within one second differently when trailing zeros are dropped.
- The watchdog's alert channel is a yes or no per attempt: whether there is room is part of the environment.
- Miner.MinedMatchesSource: prompts with white space outside the `\s` class are not covered, nor are prompts that hold a double quote and whose pattern has a quoted slot, unless each span is a whole token in double quotes (`Miner.SpansMatchSource`).
- Miner.MatchIsFields: texts with white space outside the `\s` class, and patterns with a quoted slot, are not covered.
- Cursor.CursorSafety: all results of `Cursor` rest on every fetch serving the oldest unconfirmed updates up to one fixed number in full; a shorter batch served again after a failed cursor read would move the cursor back with read faults alone.
- Approvals.Ledger.DecideApproval: a decision that lands while its answer is lost is not modelled; the caller would be told of an error and the row would be decided.
- Approvals.RunsIff: the protocol has no clock, so a gate past its deadline counts as able to run until it has looked.
- Engine.HybridEngine.EmitChunks: chunks are cut at characters; the source cuts at bytes and can split a character of several bytes.
- Engine.ChunksConcat: chunk lengths count characters where the source counts bytes.
- Lifecycle.LifetimeClosedForm: the history is that of one fresh rule; a rule re-inserted by hand with an old history is not modelled.
