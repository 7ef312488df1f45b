# Claude on the fly, modelled and proved

A Dafny model of the state-keeping protocols of the daemons: the chat turn engine, the
approval broker, the cron scheduler, the shared token refresh, and of the text, buffer
and file algorithms whose fast or staged form has to agree with a simple one.
`dafny verify dfyconfig.toml` checks everything.

## How it is built

Where the source keeps state, the model has it twice. A class carries the source's own
fields, and its methods update them in place with the source's branches and loops; each
method is proved to perform a step of a pure step machine. About the step machine, whose
runs are arbitrary sequences of events, the lasting properties are proved by invariants.
An event is a stretch of code between two awaits that really yield, so every interleaving
of tasks, cancellations and crashes is a run. A disabled event changes nothing, which
makes every sequence of events a run.

- `Approvals`, `ApprovalRuns`, `ApprovalChecks`, `ApprovalAnswers`, `ApprovalBroker`: grants,
  cooldowns, the sliding window, single flight under concurrent callers, what decides a check,
  and where true answers come from.
- `TurnEngine` is the step machine of the turn engine, `TurnStart` what a start hands over;
  `TurnRuns` proves order, `TurnSafety` and `TurnFates` crash safety, `TurnWakes` wake-ups,
  `TurnCompaction`, `TurnApart` and `TurnReadings` automatic compaction and what it goes by,
  `TurnReplays` what the records say, `TurnMessages` that a triggered compaction runs before
  its message; `TurnRepeat` and `TurnLoss` are concrete runs;
  `Orchestrator` has the tables updated in place.
- `CronTimes`, `CronRuns`, `CronPending`, `CronRefires`, `CronDaemons`, `CronOnce`,
  `CronAdmission`: schedules, what is pending and when it fires, record before fire across
  restarts, one-shots, and admission under a cap.
- `CodexAuth`, `CodexLogin`: several processes, one login file, one single-use token.
- `Interim`, `InterimRelay`: the progress limiter and the relay in front of it.
- `EventTail`: the backward read of the event log.
- `ShellScan`, `ShellComments`, `ShellHeredocs`, `PyText`: quotes, comments, heredocs and logical lines.
- `MigrationFiles`, `MigrationRepeat`, `MigrationSessions`: folding old directories.
- `PathForms`: the worklist of path forms. `Fallback`: account rotation and overlays.
- `Options`, `Numbers`, `Sequences`: shared vocabulary.

## What turned out different

- Scanning composes for all lines; that the first must not end in a backslash is not needed,
  because a newline uses the backslash up (`ScanComposes`).
- The event log's tail is documented as the last n parseable records. With malformed or blank
  lines near the end it can be shorter, also with the code's blocks of 8192 bytes
  (`BlankLinesHideRecords`); `ExactForOneBlock` says exactly when it is right for a block size.
- Start-up of the cron daemon reads the clock twice, and catches up what is less than a second
  away. An occurrence between the first reading and a second past the other is fired by the
  catch-up and again by the loop (`TwoReadingsMayRefire`, `OneMinuteTwice`).
- A one-shot entry is fired before it is recorded, so a crash in between fires it again; and a
  recorded name stays spent when its time is edited (`FiresOncePerTornStart`, `SpentIsForGood`).
- Two automatic compactions can follow each other without a reading when a turn fails before
  its dispatch in any way, not only over its account (`CompactionsCanFollowEachOther`). The
  second is then always a silent one (`AnotherWithoutReading`).
- An abort removes the record of a turn exactly when it is in flight; a turn stopped during
  its setup comes back after a restart (`AbortForgetsExactlyInFlight`).
- A turn loses its record although nothing was sent to say so in two ways, and in no other
  (`LosesExactly`): the report of its failure raises or is cancelled (`ReportCanFail`,
  `ReportCanBeLost`), or it meets an account or OS error, for which the record is dropped before
  the notice is sent (`RefusalCanStayUntold`). An OS error in the cleanup of a cancelled turn
  counts as such an error too.
- Never-ask entries can be defeated by a kind with a colon (`ColonKindsDefeatNeverAsk`), exactly
  when another split of the key is open (`NeverTrueExactlyWhenShut`). The kinds in the code are
  `host`, `tool` and `route-scope`, so the failing case does not occur.
- A codex mapping of the new workspace is overwritten by the old one (`MappingKept`). With
  separate homes there is a moment in which the session is on record but cannot be resumed,
  and it stays so when no rollout could move, since the mapping goes anyway (`ResumableGap`).
  Adopting the old store writes the mapping first, so a crash before the rollouts moved leaves
  them behind for good (`AdoptionRestart`).
- A login file that another process finds half written makes it fall back to its old copy, and
  a token that was answered already is posted again (`TornWriteIsPostedAgain`).
- Percent-decoding is documented to run to a fixed point; it stops after eight passes, which is
  enough exactly for all values below 19 characters (`DecodesShortValuesExactly`).
- Lines held back by a full progress queue stay held until another line arrives, also past
  the closing flush (`DroppedChunkWaitsForALine`).

## Model

| member | source | states |
|---|---|---|
| Approvals.SingleFlight | src/claude_on_the_fly/approvals.py:318-341 | In every run, whatever order callers, answers, timeouts and cancellations come in, two callers whose gate call is outstanding for one key are the same caller. |
| Approvals.FlightHolds | src/claude_on_the_fly/approvals.py:318-386 | A future is unresolved exactly while its key is in the in-flight table and the caller that created it is still asking; every joiner waits on a future of its own key. |
| Approvals.CheckFlight | src/claude_on_the_fly/approvals.py:318-341 | A check creates a future only for a key that has none in flight, and joins only the one that is. |
| ApprovalRuns.JoinersAreAnswered | src/claude_on_the_fly/approvals.py:318-386 | A joiner is never left waiting on nobody: its future is unresolved only while the asker is alive, and resolved it holds the answer of that gate call, false for a denial, a timeout, a failure or a cancellation. |
| ApprovalRuns.StandingMeaning | src/claude_on_the_fly/approvals.py:148-180 | The standing grant of a key is the last one granted and not revoked since, with the deadline it was granted with. |
| ApprovalRuns.AllowedExactlyWhileGranted | src/claude_on_the_fly/approvals.py:160-180 | A check is let through without asking if and only if the last grant of its key was not revoked and the clock is before grant time plus lifetime. |
| ApprovalAnswers.TrueExactlyWhenBacked | src/claude_on_the_fly/approvals.py:285-386 | An event answers a caller True if and only if its own gate call was just granted, or the one it joined, about the same key, was, or the last word on its key is an unrevoked grant whose lifetime is not over. |
| ApprovalAnswers.TrueIsEarned | src/claude_on_the_fly/approvals.py:285-386 | Every true answer in the history of any run was backed, at the event that gave it, in one of these three ways: own, joined, or stored and still standing. |
| ApprovalAnswers.NeverTrueExactlyWhenShut | src/claude_on_the_fly/approvals.py:109-202 | A request is answered True in no run of a configuration if and only if every request with its key, however the key is split at its colons, is refused by its kind's never-ask entries or has a kind whose limit is not positive. |
| ApprovalAnswers.NeverAskNeverGrants | src/claude_on_the_fly/approvals.py:182-202 | In a run whose checks for its key name kinds without a colon, a request its policy never asks about is never granted, and nobody is asked about its key. |
| ApprovalAnswers.ColonKindsDefeatNeverAsk | src/claude_on_the_fly/approvals.py:109-110 | A configuration, with a kind no caller of the code uses, in which a refused request is answered True through the key it shares with another. |
| ApprovalRuns.DenialCools | src/claude_on_the_fly/approvals.py:388-407 | After an explicit denial no gate call for that key happens before the default cooldown has passed. |
| ApprovalRuns.SlidingWindow | src/claude_on_the_fly/approvals.py:409-416 | Every closed interval as long as the window holds at most the limit of gate calls of a kind, in every run. |
| ApprovalRuns.WindowDrop | src/claude_on_the_fly/approvals.py:409-416 | Pruning at a cutoff keeps exactly the asks a later cutoff could still need, so the pruned deque is always the tail of the history. |
| ApprovalRuns.LazyTracksEager | src/claude_on_the_fly/approvals.py:160-180 | A store that drops a lapsed entry only when it is read answers every sequence of grants, reads and revocations like one swept before every call. |
| ApprovalChecks.ChecksGoByHistory | src/claude_on_the_fly/approvals.py:285-416 | In every run the fate of a check can be read off the log: let through exactly while a grant of its key stands; past that refused by a never-ask entry, or for a cooldown if and only if the log has a denial of its key, and only an explicit one, younger than the default cooldown, or for the rate if and only if the window that ends now holds the limit of questions of its kind; else it joins the question about its key that is open, and asks when none is. What each means for caller and log is stated too. |
| ApprovalChecks.CoolingIsInTheTable | src/claude_on_the_fly/approvals.py:343-407 | The cooldown table answers at any later time exactly as the denials of the run do; timeouts, failures and cancellations leave no cooldown. |
| ApprovalChecks.FullIsInTheTable | src/claude_on_the_fly/approvals.py:409-416 | What pruning leaves is exactly as many questions as lie in the window that ends now. |
| ApprovalChecks.RefusesMeaning | src/claude_on_the_fly/approvals.py:196-202 | A subject is refused without asking if and only if the entries hold the subject itself or some beginning of it with a star. |
| ApprovalChecks.AnsweredOnce | src/claude_on_the_fly/approvals.py:285-386 | In every run each caller is answered at most once, and whoever was answered neither asks nor waits any more. |
| ApprovalBroker.GrantStore.Allows | src/claude_on_the_fly/approvals.py:163-170 | True exactly for a live entry; a lapsed one goes, and no live entry is touched. |
| ApprovalBroker.GrantStore.Active | src/claude_on_the_fly/approvals.py:176-180 | The keys of the live entries, and the table afterwards holds just those. |
| ApprovalBroker.ApprovalBroker.InDenyCooldown | src/claude_on_the_fly/approvals.py:388-407 | Whether a cooldown is live, dropping it when it has lapsed and changing nothing else. |
| ApprovalBroker.ApprovalBroker.RateLimited | src/claude_on_the_fly/approvals.py:409-416 | The popping loop leaves the deque without its leading entries older than the cutoff, and answers from its length. |
| ApprovalBroker.ApprovalBroker.Check | src/claude_on_the_fly/approvals.py:285-312 | The tables and the verdict are those of the step machine the run theorems are about. |
| ApprovalBroker.ApprovalBroker.AskOnce | src/claude_on_the_fly/approvals.py:318-386 | Joins the future in flight with nothing changed, or creates one and records the ask. |
| ApprovalBroker.ApprovalBroker.Settle | src/claude_on_the_fly/approvals.py:343-386 | The whole effect of a gate call ending, for each of its five endings, as the step machine has it: only a grant is stored, only an explicit denial starts a cooldown, and every ending resolves the future. |
| TurnRuns.OneDrainPerChat | src/claude_on_the_fly/orchestrator.py:924-935 | Every chat has at most one drain task that is not done, in every run and through crashes. |
| TurnRuns.TaskHolds | src/claude_on_the_fly/orchestrator.py:924-1017 | The running table names exactly the live drain of each chat, and the in-flight table holds exactly the turns whose agent is at work. |
| TurnRuns.TurnsStartInOrder | src/claude_on_the_fly/orchestrator.py:924-1017 | The turns of a chat start in exactly the order in which they were queued, each at most once; what still waits comes later than all that started. |
| TurnRuns.NoTurnIsSkipped | src/claude_on_the_fly/orchestrator.py:723-1017 | Every queued turn was started, is waiting, or was thrown away by an abort, and only one of these. |
| TurnMessages.CompactionStartsFirst | src/claude_on_the_fly/orchestrator.py:753-779 | A message that triggered a compaction was queued after it, and once the message has started the compaction has started before it, unless an abort dropped it. |
| TurnMessages.ArrivalWaits | src/claude_on_the_fly/orchestrator.py:753-774 | A message that arrives waits to be accepted, with the ticket of the compaction queued ahead of it if it triggered one. |
| TurnMessages.AcceptanceQueues | src/claude_on_the_fly/orchestrator.py:868-935 | Accepting it queues its turn in its chat under its own id, and keeps the tickets of the two together. |
| TurnMessages.MessagesAreAcceptedOnce | src/claude_on_the_fly/orchestrator.py:753-935 | In every run each message of a chat is accepted once or still waits to be; only a crash loses one. |
| TurnSafety.NoIdTwice | src/claude_on_the_fly/orchestrator.py:897-935 | No journal id is queued twice in one process, over any run. |
| TurnSafety.Apart | src/claude_on_the_fly/orchestrator.py:897-1017 | The id a task works on is in no queue, in no replay plan and with no other task. |
| TurnSafety.AgentsRunMarked | src/claude_on_the_fly/orchestrator.py:1093-1105 | Once an agent may have run for a turn, its record says so. |
| TurnSafety.RecordsLeaveOnly | src/claude_on_the_fly/orchestrator.py:723-1092 | The only ways a record leaves the journal: the turn ends uninterrupted, it is refused in its setup or in the cleanup after a cancellation, the report of its failure is cut off, it is parked, an abort takes it, or the next start parks it; and each leaves its trace. |
| TurnSafety.RecordsLeaveExactly | src/claude_on_the_fly/orchestrator.py:723-1420 | A record leaves if and only if its turn finishes, cannot have its failure reported, is refused or parked, or is cancelled while its failure is being reported; if an abort of its chat finds it waiting or in flight; or if a start that can write the journal parks it. It stays at every other event. |
| TurnSafety.StartPicksUpEverything | src/claude_on_the_fly/turns.py:305-354 | A start after any run replays every record that is fresh and not exhausted, under its own chat, in the order of ids, with its replay count raised, and replays nothing else; the others are parked as they were, or stay when a file cannot be written. |
| TurnSafety.AbortForgetsExactlyInFlight | src/claude_on_the_fly/orchestrator.py:723-751 | Aborting a turn removes its record if and only if the turn is already in flight; during setup the record stays and the next start replays the turn. |
| TurnFates.CrashLosesNothing | src/claude_on_the_fly/orchestrator.py:897-1017 | At every step of every run, restarts included, each accepted turn is recorded, parked, or was settled by an event of the kind its fate names; none is recorded and settled at once; what waits or is set up has its record, and a turn in flight without one is being cancelled by an abort. |
| TurnReplays.RecordsTellTheHistory | src/claude_on_the_fly/turns.py:271-354 | In every run, crashes included: a record, pending or parked, names the chat its turn was accepted for; a pending one is marked dispatched if and only if a task got that far with the turn, and counts exactly how often a start handed the turn over; and no turn is handed over more than twice. |
| TurnReplays.RefusedOnce | src/claude_on_the_fly/orchestrator.py:1072-1091 | In every run an account or OS error is caught, and drops the record, at most once per turn: while the notice of it is sent, and in a cleanup that began there, it is not; in any other cleanup it is. |
| TurnFates.LosesExactly | src/claude_on_the_fly/orchestrator.py:1086-1420 | In every reachable state an event leaves a turn settled although nothing was sent to say so if and only if it drops the record over an account or OS error, whose notice comes after, or cuts off the report of its failure, by an error or a cancellation; and such a turn stays lost until that notice is sent. |
| TurnFates.ReportsEndTheRecord | src/claude_on_the_fly/orchestrator.py:1371-1420 | Whatever a recorded turn does next while its failure is being reported drops the record; it is left unreported if and only if that is an error of the report itself or a cancellation. |
| TurnFates.FatesAreEarned | src/claude_on_the_fly/orchestrator.py:723-1420 | Every fate of a turn was given by an event of its kind: its own finish with the reply or the failure report sent, an abort that covered it, the notice of its refusal sent, the drop before that notice, or a failure report cut off. |
| TurnFates.CancellationDropsExactlyUnreported | src/claude_on_the_fly/orchestrator.py:1358-1420 | In every reachable state a cancellation delivered to a task with a record drops the record if and only if the failure of the turn is being reported, and that takes a shutdown; otherwise the disk is unchanged. |
| TurnLoss.ReportCanFail | src/claude_on_the_fly/orchestrator.py:1348-1420 | A concrete run from boot without abort, shutdown, cancellation or account failure: the agent answers, neither the reply nor the report of that can be sent, and the turn is in neither file when the drain goes on. |
| TurnLoss.ReportCanBeLost | src/claude_on_the_fly/orchestrator.py:1371-1420 | A concrete run from boot in which the agent fails, a shutdown arrives while the error is being sent, and an accepted turn is left in neither file. |
| TurnLoss.RefusalCanStayUntold | src/claude_on_the_fly/orchestrator.py:1086-1091 | A concrete run from boot in which a turn is refused and the process dies before the notice is sent. |
| TurnWakes.WaitingTurnsHaveADrain | src/claude_on_the_fly/orchestrator.py:924-1017 | In every run a chat with a waiting turn has a live, uncancelled drain of its own, unless the chat was aborted or shut down and no new drain was started for it since. |
| TurnWakes.DrainsComeBack | src/claude_on_the_fly/orchestrator.py:977-1017 | Whatever a drain does next, answers, errors, failures, compaction and parking included, brings it closer to looking at its queue again. |
| TurnWakes.DrainReachesTheQueue | src/claude_on_the_fly/orchestrator.py:977-1017 | From any phase a sound drain can reach the top of its loop, in at most as many steps as the phase is away, with the queues untouched. |
| TurnCompaction.SilentCap | src/claude_on_the_fly/orchestrator.py:1569-1596 | At any step of any run at most two chats have a silent compaction queued or running. |
| TurnCompaction.SilentOnlyInWindow | src/claude_on_the_fly/orchestrator.py:1569-1620 | A tick queues a silent compaction for exactly the first due chats the cap admits, and due means idle, nothing queued, big enough, and inside the last lead seconds of the cache lifetime. |
| TurnApart.AutomaticCompactionsAreApart | src/claude_on_the_fly/orchestrator.py:937-965 | In every run, aborts, failures, shutdowns and crashes included, two automatic compactions of a chat with a dispatch of a turn of that chat between them have an ordinary turn between them that took a reading. |
| TurnApart.AutoQueuedExactly | src/claude_on_the_fly/orchestrator.py:753-779 | An event queues an automatic compaction of a chat if and only if it is a message over the threshold, or a tick that finds the chat due and fewer than the cap running or due before it. |
| TurnApart.AnotherWithoutReading | src/claude_on_the_fly/orchestrator.py:1569-1620 | While no reading was taken since an automatic compaction, the next event queues another if and only if it is a tick that finds the chat due with room under the cap, never the on-return gate; and then no turn of the chat was dispatched since the first. |
| TurnApart.CalmCompactionsAreApart | src/claude_on_the_fly/orchestrator.py:937-965 | If between two automatic compactions of a chat the chat itself is not aborted and none of its turns is refused or raises before its dispatch, a turn of the chat took a reading between them, whatever other chats do and through shutdowns and crashes. |
| TurnRepeat.CompactionsCanFollowEachOther | src/claude_on_the_fly/orchestrator.py:1074-1105 | A concrete run without abort, shutdown or account failure in which a compaction raises before its dispatch and a silent one follows with no reading between. |
| TurnReadings.SizeIsTheLastReported | src/claude_on_the_fly/orchestrator.py:1331-1339 | For every chat and after every run the size table holds exactly the last usage an ordinary turn of the chat was answered with in this process, if no compaction began, neither gate nor tick queued one and the session did not change since, and otherwise nothing. |
| TurnReadings.IdleIsTheLastReported | src/claude_on_the_fly/orchestrator.py:1502-1524 | The idle table holds exactly the last idle reading of an answered turn, unless a turn was dispatched, a tick found its cache expired or queued a compaction, or the session changed since. |
| TurnReadings.GateGoesByTheLastReport | src/claude_on_the_fly/orchestrator.py:753-965 | A message queues a compaction ahead of itself if and only if the last reported size still stands and is at least threshold percent of the window reported with it, a threshold of 0 being off; and otherwise it queues nothing. |
| TurnReadings.TickServesTheNearest | src/claude_on_the_fly/orchestrator.py:1569-1620 | A tick queues a silent compaction for a chat if and only if the chat has nothing to do, its last idle reading still stands, is big enough and its cache runs out within the lead, and the chats whose caches run out sooner leave room under the cap. |
| TurnReadings.PlacesAreHeld | src/claude_on_the_fly/orchestrator.py:1569-1596 | A chat counts against that cap exactly from the tick that queued its silent compaction until the compaction is through, given up, or a tick finds the chat with nothing to do. |
| OrchestratorTables.DueOrderIsUnique | src/claude_on_the_fly/orchestrator.py:1598-1620 | The order in which due chats are served, nearest expiry first, is determined by the tables. |
| OrchestratorTables.InsertSorts | src/claude_on_the_fly/orchestrator.py:1620 | Putting one more due chat in its place keeps the order strict and loses or adds no other. |
| OrchestratorTables.Orchestrator.JournalTurn | src/claude_on_the_fly/orchestrator.py:897-922 | Writes a record under the new id for a turn that needs one, and leaves compactions, replays and the journal alone otherwise. |
| OrchestratorTables.Orchestrator.Enqueue | src/claude_on_the_fly/orchestrator.py:924-935 | The record is on disk together with the queue entry, and a drain is started exactly when the chat has none. |
| OrchestratorTables.Orchestrator.DueForCompaction | src/claude_on_the_fly/orchestrator.py:937-965 | True exactly over the threshold, and then the reading is gone, so it cannot be true twice for one reading. |
| OrchestratorTables.Orchestrator.OnMessage | src/claude_on_the_fly/orchestrator.py:753-779 | With no other task in between, the gate, the compaction it queues and the message behind it are the arrival step of the machine followed by the acceptance of that message. |
| OrchestratorTables.Orchestrator.Abort | src/claude_on_the_fly/orchestrator.py:723-751 | The popping loop empties the queue, drops exactly the records of what waited and of the turn in flight, and cancels the drain. |
| OrchestratorTables.Orchestrator.TakeNext | src/claude_on_the_fly/orchestrator.py:977-1017 | Takes the oldest waiting turn, or ends the task and leaves the running table. |
| OrchestratorTables.Orchestrator.MarkDispatched | src/claude_on_the_fly/orchestrator.py:1093-1105 | The dispatch step of the machine: the record marked, the idle reading dropped. |
| OrchestratorTables.Orchestrator.NoteResponse | src/claude_on_the_fly/orchestrator.py:1330-1341 | The answering step: an ordinary turn replaces each reading it reports, whatever was there before, and no other turn replaces any. |
| OrchestratorTables.Orchestrator.FinishTurn | src/claude_on_the_fly/orchestrator.py:1415-1420 | The finishing step: record and in-flight entry go together. |
| OrchestratorTables.Orchestrator.FinishUnreported | src/claude_on_the_fly/orchestrator.py:1400-1420 | The same end when the failure report raised: the record goes all the same and the error goes on. |
| OrchestratorTables.Orchestrator.RefuseTurn | src/claude_on_the_fly/orchestrator.py:1086-1091 | The refusing step: the record is dropped before the notice is sent. |
| OrchestratorTables.Orchestrator.ParkFailed | src/claude_on_the_fly/orchestrator.py:977-1017 | The parking step: the record moves to the recovery file, or stays when that cannot be written. |
| OrchestratorTables.Orchestrator.BeginCompacting | src/claude_on_the_fly/orchestrator.py:1476-1496 | A compaction drops the size reading it makes stale before anything else. |
| OrchestratorTables.Orchestrator.Take | src/claude_on_the_fly/turns.py:305-354 | The loop over the records parks, keeps or reserves each, and hands over the reserved ids in order, whatever the order of the file, and none unless the reservation was written. |
| OrchestratorTables.Orchestrator.ResumePending | src/claude_on_the_fly/orchestrator.py:1789-1812 | The loop groups what `take` hands over by chat into exactly the plan the step machine boots with. |
| TurnStart.TakePlanIsRight | src/claude_on_the_fly/turns.py:305-354 | That plan exists for every journal and holds exactly the fresh and unexhausted records, each under its own chat, in strictly ascending order of ids. |
| OrchestratorTables.Orchestrator.IdleCompactDue | src/claude_on_the_fly/orchestrator.py:1598-1620 | Exactly the due chats, nearest expiry first, and exactly the lapsed readings dropped, whatever the order of the table. |
| OrchestratorTables.Orchestrator.CompactIdleChats | src/claude_on_the_fly/orchestrator.py:1569-1596 | One tick is the refresh of the tables and then one silent compaction per due chat, in order, until the cap is reached; the journal is not touched. |
| CronTimes.NextFire | src/claude_on_the_fly/cron.py:739-740 | There is always a next occurrence: the earliest one strictly after the given time. |
| CronTimes.PrevFire | src/claude_on_the_fly/cron.py:526-542 | The latest occurrence strictly before the given time. |
| CronTimes.MissedFires | src/claude_on_the_fly/cron.py:526-542 | With a clock that has fractions of a second: the counting loop gives the number of occurrences since that have come, capped at the limit, and the latest one is exactly the last less than a second past the clock, none if and only if there is none. |
| CronRuns.RecordedBeforeFired | src/claude_on_the_fly/cron.py:1112-1176 | Every fire of every run was on durable record, as just that occurrence, before it started. |
| CronRuns.RecordsAreHardlyAhead | src/claude_on_the_fly/cron.py:1112-1176 | In every run a record is less than a second ahead of the clock, and an event puts one ahead if and only if it is the catch-up of an occurrence less than a second away. |
| CronRuns.CatchUpMeaning | src/claude_on_the_fly/cron.py:1136-1176 | A start-up fires an entry if and only if its recorded expression is the current one and an occurrence since, less than a second ahead at most, lies inside the window; and it fires the latest such one. |
| CronRuns.CatchUpRecords | src/claude_on_the_fly/cron.py:1136-1176 | It leaves a record, under the current expression, unless that is the recorded one and nothing of it came since. |
| CronRefires.NoOccurrenceFiresTwice | src/claude_on_the_fly/cron.py:949-978 | Over any sequence of wakes, reloads, edits, crashes at any point and restarts, the fires of an entry are strictly later one after the other, and each is an occurrence of its expression, as long as no start-up catches that entry up with an occurrence between its first clock reading and a second past its other one. |
| CronRefires.FiresStayRecorded | src/claude_on_the_fly/cron.py:1112-1176 | Under the same condition the record covers every fire so far and is never ahead of the clock. |
| CronRefires.RecordsOnlyIncrease | src/claude_on_the_fly/cron.py:1112-1176 | The recorded times of an entry never go back, over crashes and restarts too, as long as no start-up leaves a record that an occurrence since its first clock reading comes before. |
| CronRefires.TwoReadingsMayRefire | src/claude_on_the_fly/cron.py:949-953 | When a start-up catches an entry up, the fire of the next wake is later than the one caught up if and only if no occurrence lies between the first clock reading and a second past the other. |
| CronRefires.OneMinuteTwice | src/claude_on_the_fly/cron.py:526-542 | Two concrete start-ups after which one minute has fired twice: the clock reaches it between the readings, or both readings are in the second before it. |
| CronPending.PendingIsTheFirst | src/claude_on_the_fly/cron.py:895-978 | At every point of every run, what is pending for an entry is the first occurrence of its expression after the clock as the load or wake read it that set it last; a reload sets it only for a new entry or another expression, a wake only for an entry that is due. |
| CronPending.LoadTakesTheConfig | src/claude_on_the_fly/cron.py:895-927 | After a start or reload the daemon knows exactly the configured entries, each as configured now. |
| CronPending.VisitedIsAhead | src/claude_on_the_fly/cron.py:949-978 | Once a wake has visited an entry, what is pending is later than the last wake, and the first occurrence after that wake unless a reload set it since. |
| CronPending.FiresWhenTheTimeHasCome | src/claude_on_the_fly/cron.py:958-978 | The loop makes a fire due if and only if it visits an entry whose pending time has come, and the fire is that occurrence, the first after the load or wake that set it. |
| CronPending.WakeFiresTheDueOnce | src/claude_on_the_fly/cron.py:949-978 | A whole wake, in every run, fires exactly the entries whose time has come, each once with its pending occurrence and recorded as just that; those then wait for the first occurrence after this wake, the others for what they waited for, all of them later than the wake. |
| CronDaemons.VisitAllIsARun | src/claude_on_the_fly/cron.py:949-978 | What the loop methods compute in one go is a run of the step machine. |
| CronDaemons.CronDaemon.Reload | src/claude_on_the_fly/cron.py:895-927 | An entry keeps its pending fire exactly when its expression is unchanged; every other is scheduled after now. |
| CronDaemons.CronDaemon.CatchUpOne | src/claude_on_the_fly/cron.py:1136-1176 | Counting, recording and firing for one entry leave the tables of the machine. |
| CronDaemons.CronDaemon.CatchUpMissed | src/claude_on_the_fly/cron.py:1136-1176 | The whole start-up loop is the machine visiting every entry once. |
| CronDaemons.CronDaemon.FireDue | src/claude_on_the_fly/cron.py:949-978 | One wake of the loop is the machine visiting every entry once, recording each due fire before starting it; WakeFiresTheDueOnce says what comes of it. |
| CronOnce.FiresOncePerTornStart | src/claude_on_the_fly/cron.py:961-971 | A one-shot entry, fired first and recorded after, starts once plus once for every crash between its start and its record; it starts at most once exactly when no such crash is followed by another start. |
| CronOnce.SpentIsForGood | src/claude_on_the_fly/cron.py:1089-1106 | Once recorded, a one-shot name never starts again, through reloads, edits of its time and restarts. |
| CronOnce.FiresWhenArmed | src/claude_on_the_fly/cron.py:961-970 | The loop starts a one-shot entry if and only if a start or reload armed it and the loop did not come to it since, no start of it was ever recorded, and none is going on. |
| CronAdmission.AdmissionIsSafe | src/claude_on_the_fly/cron.py:1263-1325 | Whatever items a producer prints, duplicates included, and whatever jobs finish meanwhile, unfinished keys stay distinct, the entry stays within its cap and no other entry gains a job. |
| CronAdmission.AdmissionIsGreedy | src/claude_on_the_fly/cron.py:1263-1325 | When nothing finishes meanwhile and no item is held back on its own account, every printed key is unfinished afterwards or the entry is exactly at its cap. |
| CronAdmission.OverCapAdmitsNothing | src/claude_on_the_fly/cron.py:1263-1325 | An entry at or over its cap takes on nothing. |
| CronAdmission.AdmissionOneMore | src/claude_on_the_fly/cron.py:1259-1324 | One more item is queued if and only if, after the jobs that finished are gone, no unfinished job has its key, its own history and template are fine, and the count taken before the first item with those queued since is below the cap. |
| CronAdmission.FiringMeaning | src/claude_on_the_fly/cron.py:1192-1240 | In every run firing a command starts it, a producer starts unless one of its own is in flight, and a plain prompt is queued unless one is unfinished or it does not render; nothing else changes. |
| CronAdmission.CapsHold | src/claude_on_the_fly/cron.py:1214-1341 | Over every run with a fixed configuration a producer entry never has more unfinished jobs than its cap, a plain prompt never more than one, no two unfinished jobs share a key, and a producer never overlaps itself. |
| CronAdmission.Admission.Admit | src/claude_on_the_fly/cron.py:1263-1325 | The loop with its running count queues exactly what the specification admits, and counts it. |
| CronAdmission.Admission.EnqueuePlain | src/claude_on_the_fly/cron.py:1214-1238 | A fire of a plain prompt queues one job, and nothing if and only if one is unfinished or it does not render. |
| CodexAuth.OtherFieldsSurvive | src/claude_on_the_fly/codex_auth.py:342-384 | Every field that is no token survives every rewrite, and whenever the lock is free the file holds an unspent token. |
| CodexAuth.AnsweredTokensAreSpent | src/claude_on_the_fly/codex_auth.py:298-384 | Whatever happened before, a refresh token that was answered with another one is never posted again by any process, as long as nothing brings it back: no answer and no hand-run login carries it, and no write is cut off while the file still holds it or does not parse. |
| CodexAuth.SpentInOrderlyRuns | src/claude_on_the_fly/codex_auth.py:298-384 | In runs whose writes complete and whose answers carry new tokens, hand-run logins of the same account included, no answered token is posted again. |
| CodexAuth.RejectedTokenIsNotRetried | src/claude_on_the_fly/codex_auth.py:298-340 | After the endpoint rejected its token an instance posts nothing as long as the file goes on holding that token, whatever other processes and outside writers do. |
| CodexAuth.FailedWriteServesFromMemory | src/claude_on_the_fly/codex_auth.py:361-375 | When the file cannot be written the instance serves the new tokens to every reader until the file changes, it posts again or it restarts. |
| CodexAuth.LostAnswerIsPostedAgain | src/claude_on_the_fly/codex_auth.py:361-375 | A run in which a failed write and a restart lose the answer and the spent token is posted again: the cross-process claim needs completed writes. |
| CodexAuth.TornWriteIsPostedAgain | src/claude_on_the_fly/codex_auth.py:276-296 | A run in which a write is cut off midway and another process posts the spent token from its last good copy. |
| CodexAuth.AnswerIsServed | src/claude_on_the_fly/codex_auth.py:298-383 | After an answer, written or not, the instance reads a login with every field the answer gave, the old one of every other, and the refresh dated now; the file holds it when it was written; and the next request posts again if and only if that login is a week old, its access token unreadable or within five minutes of its end, and the endpoint did not refuse its token before. |
| CodexAuth.FileChanges | src/claude_on_the_fly/codex_auth.py:342-383 | The file changes only at the beginning and the end of a write and by writers outside the lock, always with a new stat, and is unreadable in between. |
| CodexAuth.CopyFollows | src/claude_on_the_fly/codex_auth.py:276-296 | Reading makes the copy the content of the file, and leaves it only when the stat is its own or the file does not parse. |
| CodexLogin.ChatGPTLogin.ReadFile | src/claude_on_the_fly/codex_auth.py:276-296 | Re-reads exactly when the stat changed and answers from the last good copy while the file does not parse. |
| CodexLogin.ChatGPTLogin.OnRejected | src/claude_on_the_fly/codex_auth.py:327-340 | The rejection step of the machine: failed only if the file still holds the token. |
| CodexLogin.ChatGPTLogin.WriteFile | src/claude_on_the_fly/codex_auth.py:342-384 | After a complete write the file holds the updated login and the instance is clean; after a failed one every read still gives the updated login; field by field the answer's where it gives one and the old one otherwise, with the refresh dated now. |
| CodexLogin.ChatGPTLogin.RefreshIf | src/claude_on_the_fly/codex_auth.py:298-325 | Posts if and only if the re-read token is not barred and the refresh is still needed, and each outcome leaves exactly the file, the cache and the bar it should. |
| CodexLogin.ChatGPTLogin.Headers | src/claude_on_the_fly/codex_auth.py:247-251 | A token is spent if and only if the login can be read, was not refused before, and is a week old or its access token within five minutes of its end. After an answer the headers carry the access token it gave, or the old one when it gave none, and the old account, written or not; and asking again at once posts nothing if that token lives longer than five minutes. Otherwise they are those of the login as read. |
| CodexLogin.ChatGPTLogin.Recover | src/claude_on_the_fly/codex_auth.py:253-266 | Spends no token when the login as read, the cached copy of a half-written file included, carries other headers already; says to retry exactly when the headers of the next request differ, and fails exactly when the login cannot be read. After an answer that is if and only if the answer brings an access token other than the one sent. |
| Interim.ChunksTakeTheNewestLines | src/claude_on_the_fly/interim.py:234-275 | Each chunk is exactly the newest three, or fewer, of the lines received since the last successful enqueue; the stretches join without gap or overlap, so no line is in two chunks even when the queue was full. |
| Interim.ChunksArePaced | src/claude_on_the_fly/interim.py:197-275 | No chunk before the warm-up; chunks at least the gap apart except the one closing flush, which is the last; each says how long the turn has run. |
| Interim.DeliveryKeepsOrder | src/claude_on_the_fly/interim.py:234-295 | The queue stays within its bound and the consumer gets the chunks in the order they were made. |
| Interim.ClosedIsQuiet | src/claude_on_the_fly/interim.py:176-360 | After the close nothing is received or enqueued any more. |
| Interim.DroppedChunkWaitsForALine | src/claude_on_the_fly/interim.py:234-275 | Lines whose chunk is due when they arrive, and finds the queue full, stay held; neither the passing of time nor room in the queue nor the closing flush releases them until another line arrives. |
| Interim.ReleasedExactlyWhenDue | src/claude_on_the_fly/interim.py:176-346 | In every run an event queues a chunk if and only if lines came since one was last due, the limiter is open, the warm-up is over and, but for the closing flush, the gap since the last chunk, and the queue has room; the chunk covers everything received by then. |
| Interim.NothingAfterTheEnd | src/claude_on_the_fly/interim.py:297-360 | After a close or a cancellation, whichever comes first, nothing is received or queued. |
| Interim.HeldOne | src/claude_on_the_fly/interim.py:176-195 | A line that is not blank is held, cut, and a blank one is not. |
| Interim.HeldAppend | src/claude_on_the_fly/interim.py:176-195 | The lines of a text are held each for itself and in order. |
| Interim.Cut | src/claude_on_the_fly/interim.py:189-193 | No held line is longer than the limit, and a short one is not changed. |
| Interim.InterimProgress.EmitText | src/claude_on_the_fly/interim.py:176-195 | Splitting, skipping blanks, cutting, holding and the due check are the arrival step of the machine. |
| Interim.InterimProgress.FlushIfDue | src/claude_on_the_fly/interim.py:197-232 | Releases exactly when open, with news, warmed up and past the gap. |
| Interim.InterimProgress.DrainOnce | src/claude_on_the_fly/interim.py:277-295 | One turn of the consumer takes the oldest chunk, or ticks when there is none. |
| Interim.InterimProgress.Aclose | src/claude_on_the_fly/interim.py:297-346 | Closing flushes only when asked to and warmed up, and otherwise discards. |
| InterimRelays.RelayedIsEverything | src/claude_on_the_fly/agent.py:1069-1121 | Emitted and pending together are all the texts in order, and pending is exactly what follows the last tool call. |
| InterimRelays.TextsOfOne | src/claude_on_the_fly/agent.py:1100-1121 | A text block gives its text without the white space around it unless it is all white space; no other block gives any. |
| InterimRelays.InterimRelay.Feed | src/claude_on_the_fly/agent.py:1100-1116 | Whatever the split into messages, what is emitted and pending depends on the main agent's blocks alone. |
| EventTail.TailIsASuffix | src/claude_on_the_fly/events.py:90-135 | For any file and block size the result is a suffix, at most n long, of the records of the whole file, and it raises only over a line that does not decode. |
| EventTail.WellFormedIsExact | src/claude_on_the_fly/events.py:90-135 | When every line is a valid record that ends with a newline, it is exactly the last min(n, total) records, for any block size. |
| EventTail.ExactForOneBlock | src/claude_on_the_fly/events.py:90-121 | The documented promise, the last n parseable records, holds for a block size if and only if the whole lines in the least number of trailing blocks that hold more than n newlines, or in the whole file, all decode and hold min(n, total) records. |
| EventTail.ExactForEveryBlock | src/claude_on_the_fly/events.py:90-96 | It holds for every block size if and only if every line of the file decodes and its last n + 1 pieces hold min(n, total) records. |
| EventTail.BlankLinesHideRecords | src/claude_on_the_fly/events.py:90-121 | For every n and every block size, the 8192 bytes of the code among them, a log whose one record a tail of n does not find. |
| EventTail.ReadsLeastBlocks | src/claude_on_the_fly/events.py:101-115 | The backward reading stops after the least number of blocks that is enough. |
| EventTail.SplitMeaning | src/claude_on_the_fly/events.py:119-121 | The pieces of the data hold no newline, and joined by newlines they are the data. |
| EventTail.SplitOfJoined | src/claude_on_the_fly/events.py:119-121 | Only these pieces are: joined lines split into just those lines. |
| EventTail.WindowIsSuffix | src/claude_on_the_fly/events.py:101-121 | What is read backwards covers all lines or more than n of them, uncut. |
| EventTail.ReadBlocks | src/claude_on_the_fly/events.py:101-115 | The loop that puts blocks in front ends with exactly the file from where it stopped. |
| EventTail.ParseLines | src/claude_on_the_fly/events.py:123-134 | The loop over the lines gives their records in order, or raises if and only if one of them raises. |
| EventTail.Tail | src/claude_on_the_fly/events.py:90-135 | The two loops together compute the specification the theorems are about, and a missing file or a non-positive n gives nothing. |
| ShellScan.ScanComposes | src/claude_on_the_fly/audit.py:96-126 | Scanning two lines at once is scanning the first and then the second from the quote it left open, for all lines, also those that end in a backslash. |
| ShellScan.ScanIsIdempotent | src/claude_on_the_fly/audit.py:91-126 | What a scan keeps has no comment left: scanning it again changes nothing. |
| ShellComments.ScanDropsTheComments | src/claude_on_the_fly/audit.py:91-126 | Said of the text alone: a character is dropped if and only if it is on the same line as, and not before, a # that is unescaped and unquoted and comes first or after white space or an operator character; and the quote left open is the one whose mark, unescaped and outside quotes and comments, no later unescaped mark closes. A backslash counts unless it is escaped itself or inside single quotes or a comment. |
| ShellComments.HashesInWordsStay | src/claude_on_the_fly/audit.py:91-104 | A text whose every # comes inside a word, as in p#frag, is kept whole. |
| ShellScan.ScanLine | src/claude_on_the_fly/audit.py:96-126 | The loop over characters with its flags computes the scan. |
| ShellScan.GroupLines | src/claude_on_the_fly/audit.py:136-146 | The loop partitions the lines in order; every group but the last runs from no quote to no quote, and no proper prefix of a group does. |
| ShellScan.GroupingIsUnique | src/claude_on_the_fly/audit.py:129-146 | There is only one such partition, so the promise pins the result down. |
| ShellScan.RescanAgrees | src/claude_on_the_fly/audit.py:149-158 | Scanning a whole logical line from no quote ends where the grouping did and keeps what the line-by-line scans kept. |
| ShellHeredocs.RoundTrip | src/claude_on_the_fly/audit.py:73-88 | Command lines rendered with a body and terminator per tag the pattern finds come back exactly, whatever openers or other tags the bodies hold. |
| ShellHeredocs.EveryScriptIsARendering | src/claude_on_the_fly/audit.py:73-88 | Every script is such a rendering up to an unterminated end, so for any script exactly its command lines are kept. |
| ShellHeredocs.SplitBody | src/claude_on_the_fly/audit.py:80-84 | A body ends at the first line that is its tag once stripped, and not before. |
| ShellHeredocs.MatchAtIsLongest | src/claude_on_the_fly/audit.py:40 | The matcher succeeds at a position if and only if some reading of the pattern does there, and its match is the longest: opener, dash, white space, the same quote or none on both sides of a name. |
| ShellHeredocs.TagsAreFound | src/claude_on_the_fly/audit.py:87 | The tags of a line are those of the matches found from left to right, each the first from where the one before it ended, with none left after the last. |
| ShellHeredocs.WithoutHeredocs | src/claude_on_the_fly/audit.py:73-88 | The loop with its list of open tags computes the specification. |
| ShellHeredocs.LogicalLines | src/claude_on_the_fly/audit.py:129-146 | The logical lines of a script are the unique grouping of its continued command lines. |
| ShellHeredocs.ContinuedAt | src/claude_on_the_fly/audit.py:134 | A backslash and the newline after it become a space, wherever they stand. |
| ShellHeredocs.ContinuedElsewhere | src/claude_on_the_fly/audit.py:134 | A text without such a pair stays as it is. |
| PyText.SplitOfLines | src/claude_on_the_fly/audit.py:80 | Splitting takes back exactly the lines that were joined with newlines. |
| PyText.SplitAtBreak | src/claude_on_the_fly/audit.py:80 | Each kind of break ends a line, and a carriage return with a newline after it is one. |
| PyText.StripMeaning | src/claude_on_the_fly/audit.py:82 | Stripping takes exactly the white space off both ends. |
| MigrationFiles.ContentIsConserved | src/claude_on_the_fly/migration.py:144-184 | Whatever the order of listing and whichever moves fail: every content entry but a dropped persona link ends at exactly one path, its own or the right place in the new workspace under its name or the name with the thread key, and nothing there is overwritten. |
| MigrationFiles.MoveFreeMeaning | src/claude_on_the_fly/migration.py:88-99 | An entry goes to its own name when that is free, else to the one with the thread key; it stays if and only if both are taken, its move is refused or the directory cannot be made; and nothing else moves. |
| MigrationFiles.SuffixedBeforeTheSuffix | src/claude_on_the_fly/migration.py:214-222 | The thread key goes between the stem of a name and its last suffix. |
| MigrationFiles.SuffixedAtTheEnd | src/claude_on_the_fly/migration.py:214-222 | A name without a suffix, a dot file, or a name that ends in a dot gets it at the end. |
| MigrationRepeat.SecondRunChangesNothing | src/claude_on_the_fly/migration.py:144-222 | When no move is refused a second run changes nothing, and an entry left behind has both its names taken. |
| MigrationRepeat.WhatStays | src/claude_on_the_fly/migration.py:144-184 | When no move is refused no persona link stays; outbox, archive and legacy store stay only with entries in them, and an entry of the outbox only if both its names are taken in the root. |
| MigrationRepeat.Workspace.MoveOne | src/claude_on_the_fly/migration.py:88-99 | Moves and says so exactly when the target is free, its directory can be made and the system allows it. |
| MigrationRepeat.Workspace.MoveListed | src/claude_on_the_fly/migration.py:168-184 | The loop over a listing moves each entry to its free path in turn, and says that something moved exactly when an entry left. |
| MigrationRepeat.Workspace.MergeOutboxInto | src/claude_on_the_fly/migration.py:168-184 | Delivered files join the archive, the rest goes to the root, emptied directories go, and the flag is true exactly when an entry left. |
| MigrationRepeat.Workspace.MoveFilesIn | src/claude_on_the_fly/migration.py:144-165 | The loop over the old directory computes the migration the theorems are about; the flag is true exactly when an entry left it or the legacy store was adopted from. |
| MigrationSessions.ReadableThroughout | src/claude_on_the_fly/migration.py:118-129 | At every intermediate point the session is readable under the old or the new workspace, with its own thread, and no other session is touched. |
| MigrationSessions.MappingKept | src/claude_on_the_fly/migration.py:118-129 | A mapping the new workspace already has survives if and only if the old one has none for the session, or the same: it is overwritten otherwise. |
| MigrationSessions.ResumableGap | src/claude_on_the_fly/migration.py:118-141 | Between moving the rollouts and writing the mapping the session can be resumed if and only if a rollout stayed or the new workspace recorded the thread already; at the end if and only if a rollout got to the new home. |
| MigrationSessions.RestartConverges | src/claude_on_the_fly/migration.py:118-141 | Running again from any intermediate point, with the same moves refused, ends where an uninterrupted run ends. |
| MigrationSessions.RestartAmongRollouts | src/claude_on_the_fly/migration.py:118-141 | So does running again after a crash among the rollouts, some of them moved. |
| MigrationSessions.RolloutsAreConserved | src/claude_on_the_fly/migration.py:88-141 | Each rollout ends in exactly one place with its content: one of the new home untouched, one of the old home below the new home at the same path, or still in the old home exactly when its place was taken or its move refused. |
| MigrationSessions.AdoptionMeaning | src/claude_on_the_fly/migration.py:187-211 | Of the old store every thread the backend accepts is adopted unless the new workspace has a mapping, and only refused ids stay behind. |
| MigrationSessions.AdoptionRepeats | src/claude_on_the_fly/migration.py:187-211 | Adopting a store a second time changes nothing. |
| MigrationSessions.AdoptionRestart | src/claude_on_the_fly/migration.py:187-211 | After a crash while a file of the store is adopted, running again ends where the uninterrupted adoption ends if and only if the homes are shared or every rollout that could move had moved; otherwise the file goes and rollouts stay behind. |
| MigrationSessions.AdoptionEnds | src/claude_on_the_fly/migration.py:187-211 | A file of the store is there after its turn only if nothing was written for it, so a crash between two files does no harm. |
| MigrationSessions.SessionStore.MoveRollouts | src/claude_on_the_fly/migration.py:132-141 | The loop over the rollouts of a thread moves exactly those whose place is free and whose move is not refused. |
| MigrationSessions.SessionStore.MoveCodexSession | src/claude_on_the_fly/migration.py:118-129 | Performs the three writes in the order whose intermediate points the theorems are about. |
| MigrationSessions.SessionStore.AdoptLegacyCodex | src/claude_on_the_fly/migration.py:187-211 | The loop over the store computes the adoption, and the flag is true exactly when a stored thread was adopted or had a mapping already. |
| PathForms.IntroducedPaths | src/claude_on_the_fly/commands.py:720-746 | The worklist terminates and returns, without repeats and the candidate first, exactly the strings reachable through non-empty forms. |
| PathForms.ArgumentPaths | src/claude_on_the_fly/commands.py:720-795 | The same with the percent-decoding the code uses, which never lengthens. |
| PathForms.FormsMeaning | src/claude_on_the_fly/commands.py:720-778 | The forms the code tries for a string are exactly what it carries: the tail of an introducer in any letter case, without the authority, decoded. |
| PathForms.FormsShrink | src/claude_on_the_fly/commands.py:749-795 | Every form is strictly shorter than the string it came from. |
| PathForms.HasUrlMeaning | src/claude_on_the_fly/commands.py:720-746 | The introducer counts in any letter case. |
| PathForms.Push | src/claude_on_the_fly/commands.py:734-745 | One round of the inner loops pushes each unseen form once and makes the worklist lighter. |
| PathForms.UnquoteShrinks | src/claude_on_the_fly/commands.py:784-795 | One decoding pass, with non-ASCII text and escapes of any byte, changes nothing or removes at least two characters. |
| PathForms.QuotedComesBack | src/claude_on_the_fly/commands.py:781-795 | Decoding gives back exactly the bytes that were percent-encoded, whichever of them were and with digits in either case, as long as every percent sign was. |
| PathForms.OthersStandForThemselves | src/claude_on_the_fly/commands.py:781-795 | A character that begins no escape stands for itself, also a percent sign without two hexadecimal digits after it. |
| PathForms.UnquoteReadsTheBytes | src/claude_on_the_fly/commands.py:781-795 | An encoded stretch of text is read as the bytes it encodes. |
| PathForms.UnquoteKeepsOthers | src/claude_on_the_fly/commands.py:781-795 | A character outside ASCII stays, and the text on either side of it is decoded for itself. |
| PathForms.DecodesShortValuesExactly | src/claude_on_the_fly/commands.py:781-795 | All values below a length are decoded to a fixed point if and only if that length is at most 19. |
| PathForms.DeepNestingIsNotDecoded | src/claude_on_the_fly/commands.py:781-795 | A dot encoded n + 1 times over is fully decoded if and only if n is below eight. |
| Fallback.SwitchingIsChoosingFirst | src/claude_on_the_fly/accounts.py:313-334 | Switching a pinned profile to another account gives the profile that account would have had from the start, except exactly when newer pins without a model replaced a pinned model the account would not bring back. |
| Fallback.SwitchingWithoutPins | src/claude_on_the_fly/accounts.py:313-334 | For a profile without pins of its own the overlay law holds for all accounts and pins. |
| Fallback.LayeredMeaning | src/claude_on_the_fly/accounts.py:313-334 | Field by field: the newest pin that is set, else an older one, else what the account brings, else what there was before any account; but on a change to or from ollama the configured model in place of that last. |
| Fallback.AttemptsAreChosenFirst | src/claude_on_the_fly/account_fallback.py:69-107 | For a conversation layered from a profile without pins, every attempt runs on the profile the conversation would have had with that account from the start, under its pins. |
| Fallback.CandidatesRotate | src/claude_on_the_fly/account_fallback.py:38-52 | The candidates are a rotation of the pool, each account once, the selected one first. |
| Fallback.AccountFallback.Run | src/claude_on_the_fly/account_fallback.py:55-107 | The attempts are a prefix of the rotation, each with the profile of its account laid over the turn's, the continue prompt exactly when an earlier attempt started tools, each but the last moving on; the last decides between the answer and the exact error, and only a win after switching is remembered. A profile without a pool is tried once as it is. |
| Fallback.EachAccountOnce | src/claude_on_the_fly/account_fallback.py:69-107 | No account is tried twice in a turn, and none outside the pool. |
| Fallback.RetriesAndErrors | src/claude_on_the_fly/account_fallback.py:69-107 | A turn goes on to the next account exactly after one of its own backend is exhausted, unless tools had started and the progress cannot be resumed, with the continue prompt once tools had started; otherwise the last attempt decides the answer or the exact error, and after all accounts they are named as tried. |
| Fallback.SelectedMeaning | src/claude_on_the_fly/account_fallback.py:38-52 | A remembered account counts exactly while the pool is the one it was chosen from. |
| Fallback.WinnerStartsTheNextTurn | src/claude_on_the_fly/accounts.py:261-281 | The account that won is the one the next turn of the conversation starts from. |

## Left out

Assumptions and things the model does not have:

- Time is an integer and clocks never go back. The cron clock counts microseconds; its times are
  whole seconds, and an expression is an unbounded, strictly increasing sequence of them.
- Journal, recovery file, schedule records and the login file under its lock are written
  atomically within a step. A write of the recovery file may fail, and so may the journal's at
  a start; other writes of the journal and those of schedule records are assumed to succeed.
  Which records a start finds stale is a parameter. A crash between parking a record and forgetting it,
  which leaves it in both places, is not a separate point.
- Journal ids, futures and task handles are numbers never used twice. The order of replay is
  the order of ids, as the journal sorts them.
- The job queue and the key-state store by their contracts only: unfinished jobs are a table that
  enqueueing adds to and workers take from, a key's history is a verdict per item, and a recorded
  one-shot is skipped. Run-now requests appear in admission, not among the scheduled fires.
- The waiting of `abort` and `shutdown` for the cancelled task, the notices sent to chats, the
  status marks of frontends and all logging.
- The turn's own work between two steps (workspace preparation, proxies, panes, relays) only as
  steps that succeed, are refused or raise.
- Which exception a failed read of the login file raises; the refresh endpoint is an oracle that
  answers, rejects or fails.
- `apply_profile` without an account, and choosing an account by channel or user.
- The time left that account fallback hands to each attempt; its deadline is a check before each one.
- The text of chunk headers; the elapsed time stands for it. The grace period of the close.
- Directories below the entries a migration moves: an entry is moved whole. The claude transcript
  moves are two further moves of the same kind and are not listed. Planning a bulk migration.
- Reading bytes as UTF-8 is a parameter of percent-decoding, known to give no more characters than
  bytes and to read ASCII as it is. The worklist is proved for every decoder that never lengthens.
- A rollout's file name ends in its thread, and no file name fits two threads.
- `leading_tokens`, `allowed_command` and the rest of the command policy; the tokenizer and verdicts
  of the audit; token parsing and validation of configuration: decision lists that add easy members.
- `egress.py`, `broker.py`, `permissions.py`, `checks.py`, `preflight.py`, `pricing.py`, `logs.py`,
  `heartbeat.py`, chat clients and the terminal interface.

Contracts stated weaker than the source could promise:

- TurnApart.CalmCompactionsAreApart: asks for calm of the chat between the two; without it a second
  one may still not follow, and AnotherWithoutReading says event by event exactly when it does.
- CodexAuth.AnsweredTokensAreSpent: asks that no other process serves the token from memory when it is
  answered, which takes two failed writes of one token the endpoint gave out twice, and that nothing
  brings it back; LostAnswerIsPostedAgain and TornWriteIsPostedAgain show what does.
- CronRefires.NoOccurrenceFiresTwice: asks for no occurrence in the gap of a start-up that catches the
  entry up; TwoReadingsMayRefire gives both directions for that start-up.
- CronRefires.RecordsOnlyIncrease: asks the like of every start-up that leaves a record for the entry.
- CronDaemons.CronDaemon.Reload: entries of the recurring kind; the one-shot entries and their time
  are in CronOnce, apart from this table.
- CronDaemons.CronDaemon.FireDue: the recurring branch of the loop; the one-shot branch is in CronOnce.
- MigrationRepeat.SecondRunChangesNothing: the legacy store counts as an entry that goes when it is
  empty; that adopting its files again changes nothing is MigrationSessions.AdoptionRepeats.
- MigrationSessions.AdoptionRepeats: complete runs; a crash within one is MigrationSessions.AdoptionRestart.
