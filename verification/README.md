# Models of the runner service and the authenticated browser worker

This project models the parts of the Python runner and of the browser worker in which cooperative
asyncio steps interleave over shared state, and proves what their comments argue for whole runs.
Each segment of code between two awaits is one atomic step; other coroutines, the agent's own
processes, cancellations and restarts may act between any two steps. What the code cannot decide
itself (the JSON parser, `os.write`, git, Playwright, the clock) is a parameter or an oracle that may
answer in any way.

| file | models |
|---|---|
| `Wrappers.dfy`, `Lines.dfy` | `Option`; Python's `splitlines`, `strip` and `rstrip` |
| `JsonlTail.dfy` | complete-line reading of a transcript that is still being written |
| `CodexUsage.dfy`, `CodexBaseline.dfy` | billing counter steps to models; the backward search for a baseline |
| `UsageRuns.dfy`, `UsageWatcher.dfy` | one transcript under any schedule of polls; the watcher over all transcripts |
| `FailedStats.dfy` | what any schedule bills when `stat` may fail or give any size |
| `Scrollback.dfy`, `FanOut.dfy` | the byte-bounded ring of output; replay-to-live handover to N clients |
| `TerminalInput.dfy`, `InputProgress.dfy` | input epochs, the injection lock, the Codex paste latch, partial writes; when input may proceed and what a call achieves |
| `Activity.dfy`, `IdleReaper.dfy` | telling visible activity from redraws; closing sessions that nobody watches |
| `FileWatcher.dfy` | pushing a file that a terminal program rewrites back to the store |
| `ProjectSelection.dfy` | cache, sentinel and checkouts as one selected project |
| `SessionRegistry.dfy`, `SessionOwners.dfy` | browser sessions, pending imports, locks, expiry, cancellation; whose a session is and what a request is granted |
| `Redaction.dfy` | replacing every secret in nested page data |

A state machine module has a `State` (or a name of the domain), a step function `Next`, an invariant
`Inv`, one lemma per step that keeps it, and theorems over `Run`. Where the source updates an object in
place, a class has the same fields, and the contracts of its methods tie its state to those functions.

Behaviour that differs from what the surrounding comments suggest is kept as it is and stated:

- `_size` reports a failed `stat` as size 0, which the watcher takes for a truncation: the cursor goes back
  to the start (a reset), the counter becomes a known zero and the model is forgotten (`TruncationRestarts`). The bill
  of any run is given exactly (`BillOfAnyRun`). From the state of one pass over the file it is, model by
  model, the right one plus all that the lines passed owe that model, once for each such poll
  (`FailedStatsBillAgain`); from any other known counter it is right under the condition of
  `KnownBaselineStillRight`, and in counters `ForgottenCountersAreBilled`. From an unknown counter even one
  failed `stat` charges the whole history (`FailedStatBillsHistory`, with an input in
  `UnknownHistoryCharged`), against the promise that an unrecovered baseline charges none of it; when the
  promise still holds is `UnknownBaselineIff`. `FailedReadForgets` is for a read that fails too.
- `activity_idle_seconds` is rounded to a tenth of a second, so a session is reaped up to 50 ms before
  the limit, and never earlier (`WakesReapWhenIdle`, `MayReapEarly`).
- `close` pops the registry by agent id: whatever session is registered when the close of an older one
  ends is dropped with it (`ReplacementIsDropped`).
- Deduplication in `_FileWatcher` trusts that a push that raised stored nothing. A push that was stored
  although its answer was lost does no harm if and only if no key was remembered when it began
  (`LostAnswerHarmlessIff`); otherwise every content with the remembered key is later taken for stored
  (`LostAnswerDisagrees`).
- `_write_primary_sentinel` empties the file before it writes, and only logs a failure. What a restart
  finds is stated for every outcome (`RestartFinds`); over whole runs the selection is found again exactly
  if the text left on disk by the last selection strips to its name, or there is nothing to be found in
  either case (`FindsTheSelection`), which for a complete write means a name without outer white space
  (`KeptIffCanonical`).
- Replacement by the mask removes exactly the secrets that are non-empty, do not begin or end with the
  mask character and do not contain four of them (`RemovedIffSafe`). Longest first masks every occurrence
  that no other occurrence of a secret at least as long overlaps (`WholeSecretIsMasked`); of two
  overlapping secrets of one length the second is taken apart (`OverlapReveals`).

## Model

| member | source | states |
|---|---|---|
| JsonlTail.ReadRecords | runner-service/src/jsonl_tail.py:28-68 | in tail mode the cursor stops just past the last newline, and the records are exactly the parse of the complete lines before it; unreadable files and fragments move nothing |
| JsonlTail.ParseAppend | runner-service/src/jsonl_tail.py:48-68 | reading up to a line end and resuming there parses each line exactly once |
| JsonlTail.LineEndResume | runner-service/src/jsonl_tail.py:48-55 | a reader that resumes at an earlier line-end cursor ends where a reader of the whole region ends |
| JsonlTail.RecordsByLine | runner-service/src/jsonl_tail.py:57-68 | the records are exactly what the lines give, in order: blank lines and lines that do not parse give nothing, and no line is left out or read twice |
| JsonlTail.SpacesAre | runner-service/src/jsonl_tail.py:58-59 | ASCII white space is stripped, and only line feed and return end a line of bytes |
| Lines.SplitLinesCuts | runner-service/src/jsonl_tail.py:58-58 | from any place on the text is cut at every line end and nowhere else, a return directly followed by a line feed being one line end; nothing of it is lost |
| Lines.TextSetsAre | runner-service/src/pty_session.py:113-114 | what ends a line of text and what counts as white space in it, by ranges of code points |
| Lines.StripStrips | runner-service/src/jsonl_tail.py:59-59 | stripping takes off white space at both ends and nothing else |
| CodexUsage.CodexScan | runner-service/src/usage_watcher.py:201-221 | the events are, in order, what the lines at increasing places report: the model named there, otherwise the counter; no other line reports either |
| CodexUsage.ScanByEntry | runner-service/src/usage_watcher.py:209-221 | after the first n records the model is the one before record n and the counter the one before it |
| CodexUsage.LastBefore | runner-service/src/usage_watcher.py:276-297 | these are the model of the last record that names one, and the counter of the last that names none and has one, if there is such a record; otherwise what came in |
| CodexUsage.OwedByEntry | runner-service/src/usage_watcher.py:276-298 | the bill is the sum over the records of how far each counter is ahead of the last one before it, charged to the model of the last naming record before it, or to the configured one |
| CodexUsage.EventsOfAppend | runner-service/src/usage_watcher.py:201-221 | the events of a file cut at a line end are those of its two parts |
| CodexUsage.CodexDelta | runner-service/src/usage_watcher.py:265-298 | the table of shares holds for every model, and in all, exactly what the independent fold over the events charges; an unknown baseline charges nothing; the memo is the last counter, the name the last named model |
| CodexUsage.OwedAppend | runner-service/src/usage_watcher.py:276-298 | a bill over two stretches is the bill of the first plus that of the second from the counter and model the first left |
| CodexUsage.MonotoneTelescopes | runner-service/src/usage_watcher.py:285-294 | with monotone counters a bill over all models is last counter minus reference |
| CodexUsage.ChargeMerges | runner-service/src/usage_watcher.py:403-409 | what a model owes when unnamed turns go to the configured model is its own share, plus the unnamed one if it is the configured model |
| CodexBaseline.ScanBack | runner-service/src/usage_watcher.py:250-259 | the counter is what the last of the non-empty lines that parse to one parses to; None exactly if none does |
| CodexBaseline.SplitJoins | runner-service/src/usage_watcher.py:246-246 | the parts joined by newlines are the text again, and none has a newline in it |
| CodexBaseline.WindowIs | runner-service/src/usage_watcher.py:234-249 | the searched text is the whole file up to 32 MiB, and otherwise what follows the first newline of its last 32 MiB |
| CodexBaseline.RoundSplits | runner-service/src/usage_watcher.py:246-249 | splitting one more block together with the kept prefix yields exactly the line parts that splitting the whole would yield |
| CodexBaseline.FoundIsLast | runner-service/src/usage_watcher.py:239-259 | a counter found after reading only part of the window is the one the search of the whole window finds |
| CodexBaseline.CandidatesAreWholeLines | runner-service/src/usage_watcher.py:246-249 | every line the search parses is a whole line of the file: a record across block or window borders is never parsed in part |
| CodexBaseline.BackwardEqualsForward | runner-service/src/usage_watcher.py:224-262 | for a file of any size the backward search finds what the forward fold over the searched text leaves as last counter: the whole file within the read budget, otherwise what follows the first newline of its last 32 MiB; carriage returns included |
| CodexBaseline.FoundIsLastOfFile | runner-service/src/usage_watcher.py:224-262 | a counter the search finds is the last one the forward fold over the whole file finds, also when the file exceeds the read budget |
| CodexBaseline.FindBaseline | runner-service/src/usage_watcher.py:224-262 | for a file that does not shrink, what the last of the searched non-empty lines that parse to a counter parses to, None exactly when none does; None for a shrunken file; reads at most min(size, 32 MiB) bytes and splits at most three times as many over all rounds |
| UsageRuns.OnePoll | runner-service/src/usage_watcher.py:372-402 | a poll moves the cursor over exactly the complete lines it parses and charges, also when the file grew after `stat` |
| UsageRuns.PollByEntry | runner-service/src/usage_watcher.py:390-409 | a poll charges, record by record, each counter step to the model named last before it, and keeps the last counter and the last model named |
| UsageRuns.SuccessIsBelieved | runner-service/src/usage_watcher.py:348-353 | on a file that only grows, a `stat` that succeeds never gives a size below the cursor, so no poll takes it for a truncation |
| UsageRuns.RunReadsEachLineOnce | runner-service/src/usage_watcher.py:372-402 | over any schedule on an append-only file whose sampled sizes are never below the cursor (also assumed in the rows from here to `UnknownBaselineBillsNoHistory`) the records parsed by all polls together are those of the lines between the first and the last cursor, each once and in order; the cursor stays in the file, where it was or just past a newline; memo and model are those of one pass |
| UsageRuns.RunOwesTheFold | runner-service/src/usage_watcher.py:365-410 | with a known baseline the sum of all polls, per model and in all, is one fold over the complete lines passed |
| UsageRuns.QuietPollCatchesUp | runner-service/src/usage_watcher.py:372-402 | a schedule that ends with a poll of the resting file has consumed every complete line |
| UsageRuns.QuietRunSettles | runner-service/src/usage_watcher.py:372-402 | such a schedule leaves a state and a bill, and has parsed records, that depend on the file alone |
| UsageRuns.ScheduleIndependent | runner-service/src/usage_watcher.py:365-410 | two such schedules of the same file leave the same state and the same bill |
| UsageRuns.RunTelescopes | runner-service/src/usage_watcher.py:412-419 | with monotone counters everything billed is last counter minus baseline |
| UsageRuns.UnknownBaselineSeeds | runner-service/src/usage_watcher.py:277-298 | from an unknown baseline nothing is billed up to the end of the first pass that saw a counter, and exactly the rest after it |
| UsageRuns.UnknownBaselineBillsNoHistory | runner-service/src/usage_watcher.py:276-297 | for every such schedule and monotone counters the total is at most last counter minus first counter seen, and nothing when none was seen |
| UsageRuns.NewFileBilledWhole | runner-service/src/usage_watcher.py:375-380 | a transcript first seen after the baseline is billed from a known zero, even if early polls found it empty, and whatever `stat` says |
| UsageRuns.TruncationRestarts | runner-service/src/usage_watcher.py:381-389 | an observed truncation reads from the start again, against a zero counter and no model |
| FailedStats.BillOfAnyRun | runner-service/src/usage_watcher.py:348-402 | for any state, any sizes and any failing reads on an append-only file, per model and in all: the bill is that of the polls before the first reset, plus that of all lines from zero, plus that of the lines passed by then for each later reset |
| FailedStats.FailedStatsBillAgain | runner-service/src/usage_watcher.py:348-402 | from the state of one pass, over any schedule that ends at rest, each model is billed the one fold over the complete lines past the cursor and again, for each poll that reset, all that the lines passed owe it; it is the fold if and only if these owed it nothing |
| FailedStats.KnownBaselineStillRight | runner-service/src/usage_watcher.py:381-402 | from any known counter, any model and any cursor, also inside a line: each model's bill is the fold if and only if nothing was reset or what is billed from the first reset on is what was then unpaid; where counter and model had become those of one pass, if and only if the lines passed owe it nothing |
| FailedStats.ForgottenCountersAreBilled | runner-service/src/usage_watcher.py:381-389 | with monotone counters and any known baseline the bill after a reset exceeds the fold by every counter forgotten, and by what the file's last counter is ahead of the one the baseline leads to; if these agree it is right if and only if only zeros were forgotten |
| FailedStats.UnknownBaselineIff | runner-service/src/usage_watcher.py:276-389 | from an unknown baseline, over any schedule and any sizes: the bill is at most last counter minus first one read (nothing, if none was read) if and only if nothing was reset, or that counter is zero, nothing was billed before the first reset and no later one passed lines that owe |
| FailedStats.FailedStatBillsHistory | runner-service/src/usage_watcher.py:348-389 | one poll of a file whose lines were all read, or whose counter is unknown, bills the last counter of the whole file if its size is below the cursor and else nothing; so nothing if and only if the size is believed or that counter is zero |
| FailedStats.UnknownHistoryCharged | runner-service/src/usage_watcher.py:381-389 | an input: two bytes already on disk at an unknown baseline are charged 5 tokens when `stat` fails, 0 when it does not |
| FailedStats.FailedReadForgets | runner-service/src/usage_watcher.py:381-402 | when the read fails together with the `stat` nothing is billed but counter, cursor and model are forgotten, and the next successful poll bills the history |
| UsageWatcher.TranscriptsIndependent | runner-service/src/usage_watcher.py:372-410 | each transcript's state and bill are those of its own sightings, whatever is polled in between |
| UsageWatcher.BilledSinceBaseline | runner-service/src/usage_watcher.py:355-419 | baseline search and polls together bill exactly the last counter minus the one found, while no sampled size is below the cursor; it is the last counter of the whole transcript, of any size, when the part present at the baseline ends at a line end |
| UsageWatcher.MergeShares | runner-service/src/usage_watcher.py:403-409 | the report grows, model by model, by the shares of one transcript, unnamed ones going to the configured model |
| UsageWatcher.SumShares | runner-service/src/usage_watcher.py:415-419 | the totals are the sums over all models |
| UsageWatcher.Watcher.Baseline | runner-service/src/usage_watcher.py:355-363 | each listed transcript stands at its sampled size with the counter of the backward search; no other changes |
| UsageWatcher.Watcher.PollFile | runner-service/src/usage_watcher.py:372-402 | one turn of the loop is one poll of that transcript, and its shares are what that poll charges |
| UsageWatcher.Watcher.Delta | runner-service/src/usage_watcher.py:265-298 | the tables and the returned shares after `_codex_delta`; an unknown memo entry is kept absent |
| UsageWatcher.Watcher.CollectByModel | runner-service/src/usage_watcher.py:365-410 | the report holds for each charged model what the sightings charge in the simple form, and the tables are its tables |
| UsageWatcher.Watcher.Collect | runner-service/src/usage_watcher.py:412-419 | the totals are everything the sightings charge |
| Scrollback.Ring.Append | runner-service/src/pty_session.py:1500-1510 | the ring holds the longest non-empty suffix of the chunk stream within the budget, or the last chunk alone; the size field is the sum of its chunks |
| Scrollback.Ring.TailBytes | runner-service/src/pty_session.py:2014-2026 | the last bytes of what the ring holds, and the odd results for a limit of zero or less |
| Scrollback.TailIs | runner-service/src/pty_session.py:2024-2025 | the tail in plain terms for every limit, zero and negative ones included |
| Scrollback.PickTail | runner-service/src/pty_session.py:2016-2022 | the chunks picked from the end suffice for the asked number of bytes or are all there are |
| Scrollback.TailIsExact | runner-service/src/pty_session.py:2014-2026 | the tail is the last min(n, total) bytes ever emitted if and only if n bytes are held or nothing was evicted |
| Scrollback.TailWithinBudget | runner-service/src/pty_session.py:1500-1510 | with chunks of at most c bytes every tail of 1 to budget - c bytes is exact |
| FanOut.StepKeepsInv | runner-service/src/pty_session.py:1143-1175 | every segment keeps, for each client, that what it got and what it is owed are the chunks since its registration |
| FanOut.NothingLost | runner-service/src/pty_session.py:1532-1592 | for a registered client delivered, in-flight batch, pending and in-flight live chunk are together exactly the chunks emitted since registration, in order |
| FanOut.RemovedHasPrefix | runner-service/src/pty_session.py:1594-1606 | whatever became of a client, it received a prefix of those chunks |
| FanOut.LiveIsCurrent | runner-service/src/pty_session.py:1570-1582 | a live client is up to date between two chunks; a replaying one is still being drained |
| FanOut.LostAreEvicted | runner-service/src/pty_session.py:1163-1175 | a client whose live send failed is gone before the next chunk |
| FanOut.RegisteredIff | runner-service/src/pty_session.py:1170-1173 | a step keeps a client registered unless it detaches it, drops all, or ends a failed send to it (a live one at the next eviction); only a registration adds one; a client is lost exactly when a send to it failed |
| FanOut.StaysRegistered | runner-service/src/pty_session.py:1143-1175 | over any run a client that no send fails to and nobody detaches stays registered, whatever becomes of the others |
| FanOut.GetsEverything | runner-service/src/pty_session.py:1532-1592 | from its registration on such a client is owed and gets every chunk in order; once live and between two chunks it has all of them |
| FanOut.AttachGoesLive | runner-service/src/pty_session.py:1570-1587 | an attach that is left to send its batch and what gathered meanwhile goes live with all of it sent in order |
| FanOut.ChunkReachesAll | runner-service/src/pty_session.py:1152-1175 | a chunk that no send fails for reaches every registered client, live ones at once, and evicts nobody |
| FanOut.Distribute | runner-service/src/pty_session.py:1152-1159 | the loop buffers for exactly the replaying clients and collects exactly the live ones, in order of registration |
| FanOut.Session.HandleOutput | runner-service/src/pty_session.py:1143-1159 | the locked part of handling a chunk is the emit step |
| FanOut.Session.SentLive | runner-service/src/pty_session.py:1163-1169 | the end of a live send, successful or not, is the deliver step |
| FanOut.Session.EvictDead | runner-service/src/pty_session.py:1170-1175 | the second locked part evicts exactly the clients a live send failed to |
| FanOut.Session.AttachRegister | runner-service/src/pty_session.py:1541-1559 | registration is one step; the new client starts replaying with nothing pending |
| FanOut.Session.DrainTurn | runner-service/src/pty_session.py:1574-1580 | a locked turn goes live only with nothing pending, otherwise takes all of it as a batch |
| FanOut.Session.SentBatch | runner-service/src/pty_session.py:1581-1591 | a sent chunk leaves the batch; a failed send detaches the client |
| FanOut.Session.Unregister | runner-service/src/pty_session.py:1594-1606 | detaching removes the client from the table and nothing else |
| TerminalInput.StepKeepsInv | runner-service/src/pty_session.py:1608-1740 | every segment of every injection, and every Stop, cancellation, foreign write and close, keeps the invariant of lock, epochs, latch and log |
| TerminalInput.SupersededIsSilent | runner-service/src/pty_session.py:1608-1612 | every byte and every Enter of an injection is written at the epoch it started with; after a Stop or administrator input only later injections write |
| TerminalInput.NeverInterleave | runner-service/src/pty_session.py:1680-1730 | between two automatic writes of one injection there is none of another |
| TerminalInput.AcceptedIsPrefix | runner-service/src/pty_session.py:1709-1730 | what the PTY accepted of an injection is a prefix of its script, all of it on success, with at most two Enters |
| TerminalInput.LatchHolds | runner-service/src/pty_session.py:1698-1730 | in a Codex session another injection writes only after the earlier paste was seen consumed: an empty composer after an Enter sent on a same-epoch capture that showed exactly its draft |
| TerminalInput.Terminal.WriteInput | runner-service/src/pty_session.py:1742-1775 | under any pattern of partial writes and refusals the PTY receives a prefix of the data, all of it exactly on success, every byte at the epoch of the start; nothing after the epoch moved or the session closed; a replacement terminal receives nothing |
| TerminalInput.Terminal.Administer | runner-service/src/pty_session.py:1732-1740 | a non-empty administrator input raises the epoch before its first byte: each of its bytes is accepted at the raised epoch; an empty one raises nothing |
| InputProgress.ProceedsIffConsumed | runner-service/src/pty_session.py:1684-1731 | after any run of a Codex session a fresh, bracketed injection that gets the lock goes on if and only if every injection that ever closed the latch was seen consumed; otherwise it is refused and the lock is free |
| InputProgress.StepKeepsLedger | runner-service/src/pty_session.py:1698-1731 | every step keeps: the latch is closed exactly while an injection that closed it is unconsumed, and while the lock is held that can only be the holder |
| InputProgress.OthersUntouched | runner-service/src/pty_session.py:1670-1730 | no step moves a call that is not its own |
| InputProgress.ClosedIsSilent | runner-service/src/pty_session.py:1608-1612 | once the session is closed no injection writes any more, whatever steps follow |
| InputProgress.ConflictStops | runner-service/src/pty_session.py:1614-1668 | an unreadable capture, a composer that is not ready, another draft, a busy program, a Stop or the end of the session stops a Codex call before any further key, with lock free and latch as it was |
| InputProgress.UnreadyStops | runner-service/src/pty_session.py:1688-1704 | readiness ends the call on a foreign draft, a Stop, and for Codex when it is not reached; other programs go on after a delay |
| InputProgress.LateStops | runner-service/src/pty_session.py:1681-1687 | a call that gets the lock after a Stop or the end of the session, with the latch closed, or unbracketed in a Codex session, is refused |
| InputProgress.BrokenStops | runner-service/src/pty_session.py:1742-1768 | a write that the PTY breaks off or a Stop overtakes, and a cancellation anywhere, stops the call |
| InputProgress.WriteArrives | runner-service/src/pty_session.py:1742-1768 | however the PTY divides and delays it, an undisturbed write arrives whole and in order, at one epoch |
| InputProgress.TakenIff | runner-service/src/pty_session.py:1749-1768 | `_write_input` has all bytes taken if and only if some first turns, none broken off or interfered with, take exactly as many |
| InputProgress.LostEnterIsRetried | runner-service/src/pty_session.py:1641-1668 | ten captures that still show the draft lead to its validation and a second Enter |
| InputProgress.CodexDelivers | runner-service/src/pty_session.py:1670-1731 | from a free lock and an open latch an undisturbed call ends well: the whole payload and one Enter written, the paste seen consumed, lock and latch open again, however long the screen takes |
| InputProgress.OthersDeliver | runner-service/src/pty_session.py:1670-1727 | for other programs it ends with payload and return written and the lock free, whether or not readiness was seen |
| Activity.IsCursorBlink | runner-service/src/pty_session.py:107-133 | true exactly if the two grids differ, only in one row, only in two adjacent cells, and only between cursor glyphs |
| Activity.CellsShown | runner-service/src/pty_session.py:113-127 | cell (r, c) of a capture is character c of its line r, unless only white space follows there; all else is blank |
| Activity.GlyphsAre | runner-service/src/pty_session.py:100-102 | the cursor glyphs: blanks, underscore, vertical bars and block elements |
| Activity.BlinkChangesOnlyCursor | runner-service/src/pty_session.py:107-133 | a blink leaves every cell as it was once cursor glyphs are blanked |
| Activity.VisibleChangeIsNoBlink | runner-service/src/pty_session.py:107-133 | any other visible change is not a blink |
| Activity.QuietRunKeepsScreen | runner-service/src/pty_session.py:1898-1912 | over any run whose captures are classified as no activity the blanked screen is constant and no change is counted |
| Activity.ClassifiedScreenIsShown | runner-service/src/pty_session.py:1898-1912 | when no output waits for the sampler, the screen shown is, but for the cursor, the one captured when activity was last counted; a failed capture was counted |
| Activity.CaptureIsDecided | runner-service/src/pty_session.py:1908-1912 | a capture counts if it failed, is the first, or differs from the last one in more than a cursor blink, and not otherwise |
| Activity.SampleCatchesUp | runner-service/src/pty_session.py:1898-1912 | one sample classifies all output so far and remembers the screen shown |
| Activity.NoOpSampleBegins | runner-service/src/pty_session.py:1906-1912 | each capture that does not count puts the session into the no-op state, its last change unmoved |
| Activity.NoOpSampleHolds | runner-service/src/pty_session.py:1924-1941 | from then until a change is counted, idle time runs from the last counted change, however much output arrives |
| Activity.OtherwiseOutputCounts | runner-service/src/pty_session.py:1924-1941 | in every other reachable state idle time runs from the latest output |
| Activity.Monitor.EndSample | runner-service/src/pty_session.py:1905-1912 | a capture that counts moves the last change to the output it classified, any other leaves it; the marks stay sound |
| Activity.Monitor.IdleFor | runner-service/src/pty_session.py:1924-1941 | the time since the classified moment, never negative, None when nothing was printed |
| IdleReaper.StepKeepsInv | runner-service/src/pty_session.py:2056-2206 | every step keeps: only the timer's task runs uncancelled, except a reaper that set `_closed`, which nothing cancels |
| IdleReaper.UnwatchedIsArmed | runner-service/src/pty_session.py:2067-2095 | a live session without exit or close under way and without clients has an armed, uncancelled timer |
| IdleReaper.ReapedIsIdle | runner-service/src/pty_session.py:2075-2093 | a reaper that closes began with no client, and with the last counted change (and the last output unless the latest sample was a no-op) the full limit ago, up to rounding |
| IdleReaper.ClosesUnwatched | runner-service/src/pty_session.py:2112-2134 | whatever happened since it looked, a reaper sets `_closed` only while no client is attached |
| IdleReaper.WakesReapWhenIdle | runner-service/src/pty_session.py:2082-2092 | a waking reaper begins to close exactly when the idle time is less than half a tenth of a second short of the limit; only at the half itself may it go either way |
| IdleReaper.MayReapEarly | runner-service/src/pty_session.py:1941-1941 | for every limit of at least a second, an idle time short of it by less than 50 ms is reported as the limit and reaped |
| IdleReaper.WakeIsDecided | runner-service/src/pty_session.py:2075-2093 | a wake ends the reaper of a session that is watched, dead or closed, and lets it sleep on below the limit, changing nothing else |
| IdleReaper.WriteRestarts | runner-service/src/pty_session.py:1770-1774 | typing without a viewer starts the countdown again and cancels every earlier reaper |
| IdleReaper.AttachSpares | runner-service/src/pty_session.py:1541-1542 | a viewer who attaches cancels every reaper that has not set `_closed` |
| IdleReaper.CancelledIsInert | runner-service/src/pty_session.py:2071-2074 | a cancelled reaper does nothing any more but end |
| IdleReaper.IdleIsClosed | runner-service/src/pty_session.py:2075-2205 | an idle session that nobody comes back to is closed and deregistered |
| IdleReaper.ForeignCloses | runner-service/src/pty_session.py:2112-2205 | any other close does the same, once, and leaves no reaper running |
| IdleReaper.ClosedReaperGoesOn | runner-service/src/pty_session.py:2056-2065 | no step, its own timer handling included, cancels a reaper that has set `_closed` |
| IdleReaper.ClosedReaperDeregisters | runner-service/src/pty_session.py:2133-2205 | over any run such a reaper is still running uncancelled or has taken the session out of the registry for good |
| IdleReaper.ExitDropsAll | runner-service/src/pty_session.py:2028-2050 | when the process exits all viewers are dropped and a close begins unless one was there |
| IdleReaper.ReplacementIsDropped | runner-service/src/pty_session.py:2205-2205 | whatever happened since the reaper set `_closed`, the end of its close leaves no registry entry: another session's entry is lost if and only if one is registered by then |
| IdleReaper.ReplacementIsLost | runner-service/src/pty_session.py:2133-2205 | an input: a session registered while a reaper is closing the older one is out of the registry when that close ends |
| IdleReaper.ReplacementIsThere | runner-service/src/pty_session.py:2205-2205 | an entry made by a replacement stays until some close of the old session ends |
| IdleReaper.IdleTimer.Cancel | runner-service/src/pty_session.py:2056-2065 | the timer is forgotten, and cancelled unless it is the caller's own task or already done |
| IdleReaper.IdleTimer.Start | runner-service/src/pty_session.py:2067-2095 | the former timer is cancelled and a new sleeping task armed |
| FileWatcher.CaughtUpIsStored | runner-service/src/pty_session.py:532-565 | whenever the mtime marker has caught up with the file its content is stored up to the key, or has none, whatever raced with probe and read and whichever pushes failed; an answer may be lost as long as no key is remembered |
| FileWatcher.SuccessivePushesDiffer | runner-service/src/pty_session.py:542-556 | with a dedup key no two successive pushes carry the same key |
| FileWatcher.QuietPollCatchesUp | runner-service/src/pty_session.py:532-565 | a poll without writes and failures catches up |
| FileWatcher.RestoredIsNotPushed | runner-service/src/pty_session.py:493-514 | after a successful baseline a poll without writes changes and pushes nothing; after a failed one the first poll finds the file newer |
| FileWatcher.ChangeIsPushed | runner-service/src/pty_session.py:532-565 | a later change is pushed and stored, unless it keeps the key or has none |
| FileWatcher.RefusedIsRetried | runner-service/src/pty_session.py:538-563 | an unreadable file or a refused push leaves the markers, so that the next poll tries again |
| FileWatcher.LostAnswerDisagrees | runner-service/src/pty_session.py:554-563 | when an answer is lost while a key is remembered, every content with that key, written back and polled, is caught up and disagrees with the store |
| FileWatcher.LostAnswerHarmlessIff | runner-service/src/pty_session.py:554-563 | a lost answer keeps agreement in every later trusted run if and only if no key was remembered |
| FileWatcher.PollIsItsSteps | runner-service/src/pty_session.py:532-565 | one `poll_once` is the run of its three steps, whatever is written between probe and read |
| FileWatcher.Watcher.CaptureBaseline | runner-service/src/pty_session.py:493-514 | mtime and key are recorded together, exactly if probe, read and key function succeed; otherwise both are reset |
| FileWatcher.Watcher.PollOnce | runner-service/src/pty_session.py:532-565 | the markers after a poll and the value pushed, for every outcome of probe, read, key and push |
| ProjectSelection.FindsTheSelection | runner-service/src/agent_user.py:286-348 | once the sentinel exists, over every run of ensures, detaches, failed clones, restarts and writes that end in any way: if the last selection was kept on disk, the project found is the one selected last if its checkout is present, else none; after a restart that holds if and only if it was kept or neither it nor what the sentinel says can be found |
| ProjectSelection.OnlyCommitsSelect | runner-service/src/agent_user.py:861-950 | only a completed ensure or detach moves the selection, to its project or to none, and the sentinel never disappears |
| ProjectSelection.StepKeepsInv | runner-service/src/agent_user.py:299-348 | whatever was written, the cache holds the last selection or what the sentinel says |
| ProjectSelection.StepSettles | runner-service/src/agent_user.py:736-746 | after every step the sentinel reads back as the selection if and only if the last selecting step left its name on disk |
| ProjectSelection.KeptIffCanonical | runner-service/src/agent_user.py:725-746 | a complete write keeps a name if and only if it is not empty and has no outer white space |
| ProjectSelection.RestartFinds | runner-service/src/agent_user.py:736-746 | for every outcome of the sentinel write the project is found until a restart, and then if and only if the text left on disk strips to its name; an emptied file gives none, an unopened one what was found before |
| ProjectSelection.FirstEnsureFixesSelection | runner-service/src/agent_user.py:928-932 | the first ensure selects what was found and writes it down before it clones anything; it is read back if the write kept it |
| ProjectSelection.CloneMakesPresent | runner-service/src/agent_user.py:749-819 | a repository that passes `_clone_or_update_one` is a checkout; everything else ends the call |
| ProjectSelection.CloneIsDecided | runner-service/src/agent_user.py:764-802 | a repository is taken as it is if it is a checkout, refused if anything else is there, and cloned otherwise; a refused or failed one ends the call and changes no other directory |
| ProjectSelection.GetIsDecided | runner-service/src/agent_user.py:299-348 | the cached checkout if it is still there, else what the sentinel says if that is one, and only without a sentinel what listing finds |
| ProjectSelection.FastPathIff | runner-service/src/agent_user.py:888-907 | an ensure ends at once if and only if its project is the one found, was prepared less than 30 s ago, and every listed repository is there |
| ProjectSelection.SecondEnsureIsFast | runner-service/src/agent_user.py:943-950 | what an ensure has just prepared the next one within 30 s finds ready |
| ProjectSelection.LettersStay | runner-service/src/agent_user.py:111-111 | exactly the letters and digits of an agent's id are kept, in order |
| ProjectSelection.InterruptionsKeepHome | runner-service/src/agent_user.py:855-858 | a failure, a cancellation or a restart leaves selection, sentinel and directories alone |
| ProjectSelection.RunKeepsCheckouts | runner-service/src/agent_user.py:764-774 | no run of the service removes or replaces an existing checkout |
| ProjectSelection.SharedHome | runner-service/src/agent_user.py:110-112 | two agents share a home if and only if their first 24 letters and digits agree, "default" standing for none |
| ProjectSelection.AgentsIndependent | runner-service/src/agent_user.py:861-865 | agents with distinct sanitised names each see a run of their own actions only |
| ProjectSelection.Projects.GetProjectDir | runner-service/src/agent_user.py:299-348 | cache, sentinel and listing are consulted in this order, and the cache is refreshed or dropped |
| ProjectSelection.Projects.BeginEnsure | runner-service/src/agent_user.py:862-932 | the first segment of an ensure keeps the invariant and ends the call only on the fast path |
| ProjectSelection.Projects.CloneOrUpdateOne | runner-service/src/agent_user.py:749-819 | a repository that passes is a checkout and leaves the rest to do; anything else ends the call |
| ProjectSelection.Projects.CommitProject | runner-service/src/agent_user.py:943-950 | the last segment of an ensure selects its project, whatever becomes of the sentinel write |
| ProjectSelection.Projects.BeginDetach | runner-service/src/agent_user.py:878-881 | the first segment of a detach changes neither selection nor sentinel |
| ProjectSelection.Projects.CommitDetached | runner-service/src/agent_user.py:882-884 | the last segment of a detach selects nothing and drops the cache |
| ProjectSelection.Projects.EnsureProject | runner-service/src/agent_user.py:855-950 | when nothing else runs in between, the call is the run of its steps for any clone and write outcomes; it returns the project exactly on the fast path or when every repository passed, and then every listed repository is a checkout |
| SessionRegistry.StepKeepsInv | mcp-auth-browser/src/server.py:403-529 | every segment of every command, the reaper, expiry and cancellation keep the invariant of tables, locks and history |
| SessionRegistry.WithinCapacity | mcp-auth-browser/src/server.py:414-485 | at most MAX_SESSIONS sessions and 100 pending imports are held, and no session serves two scopes |
| SessionRegistry.NeverOverwritten | mcp-auth-browser/src/server.py:424-485 | a scope keeps its live session until it expired, or a user disconnected it by its id, and then the one task that takes it out closes it |
| SessionRegistry.WorksOnRegistered | mcp-auth-browser/src/server.py:487-529 | after waiting for its lock a command works, alone, on the session still registered for its scope, and only if entitled: an agent on a session released to it, otherwise the user who opened it, on its login screen for looking and typing |
| SessionRegistry.OneShot | mcp-auth-browser/src/server.py:423-458 | each pending import makes at most one session, and none if it was cancelled or expired before |
| SessionRegistry.NothingLeftBehind | mcp-auth-browser/src/server.py:438-458 | when no launch is under way no reservation is held and every session object is registered or being closed |
| SessionRegistry.FailedLaunchReleases | mcp-auth-browser/src/server.py:443-458 | failure or cancellation at any await of a launch begins to close its session, and ends with the reservation and the creation lock released, also when cancelled again |
| SessionRegistry.GoneMakesNoSession | mcp-auth-browser/src/server.py:424-449 | an import that was disconnected, expired or failed makes no session in any later run |
| SessionRegistry.CommandIsDecided | mcp-auth-browser/src/server.py:122-140 | a command with its session's lock closes the session exactly if it is eight hours old, half an hour unused, or disconnected by its id; works exactly if the session is alive, has its page and grants it to this user or agent; and otherwise ends |
| SessionRegistry.CommandTouches | mcp-auth-browser/src/server.py:514-519 | what it leaves of the session: its last use for granted commands but looking, the login phase for a takeover, the lock |
| SessionOwners.RedeemedByPreparer | mcp-auth-browser/src/server.py:414-458 | over every run an import is redeemed only by the user who prepared it, and the session it makes is his in every later run |
| SessionOwners.ImportSucceeds | mcp-auth-browser/src/server.py:414-458 | prepared and redeemed by one user within ten minutes, with a free scope and room, an import makes a ready session of his and leaves nothing else behind |
| SessionOwners.StartSucceeds | mcp-auth-browser/src/server.py:466-485 | so does a start, on its login screen |
| SessionOwners.AskIsDecided | mcp-auth-browser/src/server.py:459-491 | a pending import answers a command of its scope: any user may disconnect it by its id, all else is refused; otherwise the session is waited for |
| SessionOwners.CommandWorks | mcp-auth-browser/src/server.py:492-529 | a granted command gets to work on an otherwise idle session and lets go of its lock at the end |
| SessionOwners.InterruptionReleases | mcp-auth-browser/src/server.py:492-529 | a cancelled command lets go of its session's lock, also while it closes the session |
| SessionOwners.SharingIsReady | mcp-auth-browser/src/server.py:520-532 | only an activation under way makes a session ready for agents |
| SessionOwners.NewLoginEndsAccess | mcp-auth-browser/src/server.py:133-142 | when the site wants a new login neither agents read nor its owner looks or types until he takes the session over |
| SessionOwners.ExpiredIsReaped | mcp-auth-browser/src/server.py:347-355 | the reaper takes out and closes a session that is eight hours old or half an hour unused |
| SessionRegistry.Registry.ExpireImports | mcp-auth-browser/src/server.py:341-344 | exactly the pending imports whose time has come are dropped; the invariant is kept |
| SessionRegistry.Registry.PrepareImport | mcp-auth-browser/src/server.py:414-422 | with the creation lock free, a pending import of ten minutes is added for the asking user, only for a free scope below the limit; the invariant is kept |
| SessionRegistry.Registry.ReserveImport | mcp-auth-browser/src/server.py:423-444 | with the creation lock free, an import goes on exactly if valid, with the reservation of its scope pending, unexpired, unconsumed, prepared by the same user and of the same id, the scope free and room below the capacity; it then consumes the reservation and opens a session of that user; the invariant is kept |
| SessionRegistry.Registry.BeginStart | mcp-auth-browser/src/server.py:473-480 | with the creation lock free, a legacy start goes on only for a free scope and below the capacity; the invariant is kept |
| SessionRegistry.Registry.FinishLaunch | mcp-auth-browser/src/server.py:448-452 | after the launch the session is registered exactly if it is a start, or its reservation is still there and in time; the invariant is kept |
| SessionRegistry.Registry.AbortLaunch | mcp-auth-browser/src/server.py:453-455 | after a failed or cancelled launch the half-opened session begins to close and nothing is registered; the invariant is kept |
| SessionRegistry.Registry.Work | mcp-auth-browser/src/server.py:492-528 | with the session's lock free: nothing happens if the session is no longer registered, it is closed if expired or disconnected, otherwise the checks are made in order; the invariant is kept |
| SessionRegistry.Registry.ReapOne | mcp-auth-browser/src/server.py:351-355 | with the session's lock free, the reaper takes a session out only if it is expired and still registered; the invariant is kept |
| SessionRegistry.Registry.ReleaseReservation | mcp-auth-browser/src/server.py:456-458 | the reservation, if still its own, and the lock are given up; the invariant is kept |
| Redaction.ReplaceIsSplitJoin | mcp-auth-browser/src/page_state.py:103-106 | replacing cuts the text, as early as possible each time, into pieces free of the secret and joins the same pieces with the mask |
| Redaction.RemovedIffSafe | mcp-auth-browser/src/page_state.py:103-106 | a single replacement leaves no copy of a secret in any text if and only if it is non-empty, does not begin or end with the mask character and does not contain the mask |
| Redaction.NoDotIsSafe | mcp-auth-browser/src/page_state.py:103-106 | every non-empty secret without the mask character is of that kind |
| Redaction.NoneLeft | mcp-auth-browser/src/page_state.py:103-106 | after all passes, in any order, none of those secrets occurs in the text, whatever the others are |
| Redaction.NoneLeftAround | mcp-auth-browser/src/page_state.py:103-106 | nor does any text that contains one of them |
| Redaction.ListMayStillBeClean | mcp-auth-browser/src/page_state.py:103-106 | so safety of each secret is not necessary for a whole list |
| Redaction.WholeSecretIsMasked | mcp-auth-browser/src/page_state.py:216-217 | longest first, an occurrence of a secret in any text that no occurrence of another secret at least as long overlaps becomes the mask, between what becomes of the two sides |
| Redaction.SecretAloneIsMasked | mcp-auth-browser/src/page_state.py:216-217 | a text that is a secret becomes the bare mask |
| Redaction.OverlapReveals | mcp-auth-browser/src/page_state.py:216-217 | of any two overlapping secrets of one length, the second without mask characters at its ends and no mask inside, all of the second that the first does not cover stays readable |
| Redaction.ShortestFirstReveals | mcp-auth-browser/src/page_state.py:216-217 | in the opposite order all of a longer secret but the shorter one inside it stays readable |
| Redaction.Redact | mcp-auth-browser/src/page_state.py:102-111 | every string at every depth passes through all replacements in order, keys and shape unchanged |
| Redaction.NoSecretLeft | mcp-auth-browser/src/page_state.py:102-111 | no such secret is left in any string value at any depth |
| Redaction.CleanValueIsUnchanged | mcp-auth-browser/src/page_state.py:102-111 | a value free of secrets is returned as it is |

## Left out

- BackwardEqualsForward: assumes that the two loaders take the same counter from each line of the searched text, although one decodes with replacement and the other strictly, and one looks for a model name first.
- FindBaseline: when a read raises, the answer may be None although a counter exists, as in the code.
- BilledSinceBaseline: for a transcript that is cut inside a line when the baseline is taken, the bill is relative to the baseline found; the cut line is lost in the code too.
- CaughtUpIsStored: excludes runs in which an answer is lost while a key is remembered; those are shown to fail. Strictly growing mtimes, a baseline taken while nothing writes, and polls one at a time are assumed.
- FindsTheSelection: path normalisation ("//", ".", "..") and scans below two levels are not modelled, nor is a sentinel cut inside a multi-byte character; an agent that edits the sentinel itself is excluded.
- EnsureProject: the whole call is stated for the case that nothing else runs in between; interleavings are covered by its segments `BeginEnsure`, `CloneOrUpdateOne` and `CommitProject`.
- LatchHolds: how a composer screen is read (empty draft, matching draft, busy markers) is a parameter; the text rules of `screen_is_input_ready`, `_codex_draft` and `_codex_matches_paste` are not modelled.
- AcceptedIsPrefix: the time limits of waiting loops are oracles; a limit may end a wait at any turn.
- ClassifiedScreenIsShown: output times are strictly increasing, and a capture is one atomic look at the screen; masking of idle animations happens before it.
- ReapedIsIdle: how long a reaper sleeps is not modelled, only what it does when it wakes.
- WorksOnRegistered: `shutdown` of the worker, which closes all sessions without their locks, is not modelled.
- OneShot: a pending import and a session of the legacy `start` path may exist for one scope at the same time, because that path awaits between its check and the creation lock; no claim is made about it.
- ExpireImports: the clock is read once for the whole loop instead of once per import.
- Redact: strings are sequences of Unicode characters; text clipped before redaction may hold part of a secret, about which nothing is claimed.
- The Claude transcript dialect and `_usage_totals` live in other files; only the codex adapter is modelled, with an abstract counter parser.
- A `_FileWatcher` over several files (pty_session.py:782-843): its mtime is the greatest of theirs, so that deleting one of them changes the content without raising it and stays unnoticed; only a single file is modelled.
- Overlapping `poll_once` calls of one watcher (background task and final call in `close`).
- `append_terminal_transcript` as a second producer of terminal output.
- Decoding of bytes to text, in transcripts and in `tail_text`.
- tmux, pyte, signals, git, chown, HTTP delivery and retries: nondeterministic results.
- Playwright, CDP, DNS, cookies and page content: an oracle that may change a session's phase to a new login at any time.
- Detectors made of regular expressions (auth errors, secrets, startup prompts) and command blocklists.
- Small stateless helpers of the API, the frontend and the other services, which hold no state across calls.
