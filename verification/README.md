# Verified models of the late.sh server and command-line client

This project models the parts of late.sh whose correctness rests on interleavings, on
histories or on exact text handling, and proves what they promise. Each module stands for
one source file or one protocol.

Protocols are step machines on values: a state, the atomic actions of the code, and an
invariant that every action keeps, so each result holds for every interleaving and every
failure. The sections of those protocols that update shared fields under one lock are also
written in place, as methods of a class proved to make exactly the machine's step. Loops
and parsers are methods proved against a specification function, about which the promises
are lemmas.

| module | what it models |
|---|---|
| `RenderLoop` | the wake-up protocol between input, resizes and other producers and a session's render loop |
| `ArtboardPersistence` | saving the shared artboard: saver, debounced persist thread, restore and shutdown flush over a fallible database |
| `Rollover` | the daily and monthly archive with retries |
| `Presence` | connection counts, sessions and the away set of the SSH server |
| `PairedClients` | the registry of browsers and CLIs paired with a session, and what each was last told |
| `RateLimit` | the sliding-window limiter per address |
| `HelperBackoff` | the crash window and back-off of the embedded webview helper |
| `TokenStream` | taking the session token out of a chunked output stream |
| `TomlConfig` | the flat TOML reader of the client configuration |
| `ProxyHeader` | the PROXY protocol reader and parser |
| `Nonogram` | clue derivation and puzzle validation |
| `Bridge` | the NetHack bridge loop and its teardown |
| `FloodFill` | the map generator's flood fill and zone geometry |
| `Text`, `Utf8`, `Sequences`, `Timelines`, `FiniteSets`, `Wrappers` | what the models share: Rust's string functions, UTF-8, concatenation, lists of clock readings, finite sets, options |

## Where the code does less than its comments or its design say

The members named give a concrete run or the exact condition.

- `late-ssh/src/ssh.rs:59-62` promises a gap between any two consecutive renders. It holds
  before throttled renders (`RenderLoop.ThrottleKeepsGap`); for the next render of any kind
  it holds exactly when no world tick falls due within it (`RenderLoop.GapKeptIffNoTick`,
  with a run in `RenderLoop.TickIgnoresGap`).
- A producer that has queued input and has not stored `dirty` yet leaves a non-empty queue
  that nothing announces. No wake-up is lost because it is about to
  (`RenderLoop.QueuedBeforeDirtyIsSilent`), so `RenderLoop.NoLostWakeup` asks for no
  producer anywhere in its sequence, not only between the store and the permit.
- Restore and shutdown flush write the main row after releasing the persistence lock, so an
  older board can land over a newer one; then nothing is dirty and the row stays behind
  (`ArtboardPersistence.RestoreCanOvertake`). Quiescence means durable exactly when that
  did not happen, and `ArtboardPersistence.OnlyLateWritesOvertake` says which write does it.
- A write of the persist thread that lands without being acknowledged is repeated, so there
  can be two writes for one save (`ArtboardPersistence.UnacknowledgedWriteRepeats`). Two
  consecutive writes show the same save exactly when the first was not acknowledged and
  nothing was saved between its version check and the copy for the second
  (`ArtboardPersistence.RepeatsIff`, for every pair of every run by
  `ArtboardPersistence.EveryPairOfWrites`).
- A rollover retried after a failed write blanks the live board again, and writes the blank
  board over the main row, exactly when the monthly key was left unwritten
  (`Rollover.RetryBlanksIff`), and what was drawn meanwhile can be lost
  (`Rollover.RetryErasesNewEdits`). A prune that failed is never resumed
  (`Rollover.RetryNeverPrunes`). The archived picture and provenance are read separately
  (`Rollover.CaptureIsTornByEdits`).
- The away set is updated under a second lock, so two overlapping updates of one user can be
  stored in the wrong order (`Presence.OverlapCanLoseAway`); and an app outlives its handler,
  so a command handled late can leave a user away with no session
  (`Presence.DepartedCanStayAway`). `Presence.AwaySetIsExact` says when the set is accurate.
- A connection limit of zero leaves zero entries in the count map
  (`Presence.ZeroLimitLeavesZeroEntry`).
- Comments in `late-ssh/src/paired_clients.rs` speak of no CLI being paired; the code, which
  the model follows, asks for no CLI with Icecast output. The embedded-webview allowance is
  not refreshed by every report (`PairedClients.WebviewFlagAfterReport`).
- The crash window of the webview helper is anchored at its first failure, so four failures
  fit into a minute although the limit is three (`HelperBackoff.FourFailuresInAMinute`).
- A failed read of the terminal drops the bytes held back by the token filter
  (`TokenStream.ForwardSshOutput`).
- Transposing a grid of rows without cells loses its row clues (`Nonogram.TransposeSwaps`),
  and clues of runs longer than 255 saturate (`Nonogram.ClueTotals`).

## Model

| member | source | states |
|---|---|---|
| RenderLoop.StepKeepsInv | late-ssh/src/ssh.rs:1088-1381 | every atomic action of loop and producers keeps the wake-up, lock, queue, permit and timing invariant |
| RenderLoop.NoLostWakeup | late-ssh/src/ssh.rs:1268-1381 | in every run, a parked loop with queued input or an owed repaint and no producer half way has an armed throttle, or `dirty` with a stored permit |
| RenderLoop.QueuedBeforeDirtyIsSilent | late-ssh/src/ssh.rs:1143-1180 | between queueing input and storing `dirty` nothing announces the input yet |
| RenderLoop.InputIsFifo | late-ssh/src/ssh.rs:1299-1330 | accepted input is what was handled followed by what is queued: each once, in order, at most 256 waiting |
| RenderLoop.SkipsArePaidFor | late-ssh/src/ssh.rs:1268-1297 | rounds that render nothing never outnumber the permits posted |
| RenderLoop.ThrottleKeepsGap | late-ssh/src/ssh.rs:59-62 | a throttled render starts at least the minimum gap after the end of the one before |
| RenderLoop.TickIgnoresGap | late-ssh/src/ssh.rs:1268-1297 | a run from the start in which a world tick renders sooner than the minimum gap after a render |
| RenderLoop.GapKeptIffNoTick | late-ssh/src/ssh.rs:1268-1297 | when a pass has ended, every continuation's next pass keeps the gap iff the next world tick falls due no earlier than that |
| RenderLoop.RenderRate | late-ssh/src/ssh.rs:1088-1137 | k throttled renders take k gaps and k ticks more than k - 1 intervals, whatever floods in |
| RenderLoop.EveryScheduleServes | late-ssh/src/ssh.rs:1268-1381 | from every reachable parked state with work owed, every schedule of the loop in which no call fails and time does not pass while it can step paints all accepted input by the throttle deadline, in a bounded number of steps, never stuck before |
| RenderLoop.ServedPromptly | late-ssh/src/ssh.rs:1268-1381 | from every such state there is such a schedule, and it ends with that frame |
| RenderLoop.LostFrameIsRepainted | late-ssh/src/ssh.rs:1331-1359 | after a frame whose write timed out, until the next frame is painted and whatever happens in between, the parked loop owes a full repaint and is armed for it or has `dirty` with a permit |
| RenderLoop.ResizeIsRepainted | late-ssh/src/ssh.rs:1216-1243 | so after a resize |
| RenderLoop.LoopEndsIff | late-ssh/src/ssh.rs:1088-1137 | in every run the loop has ended iff a call failed, an input quit, or it came to draw after a hang-up |
| RenderLoop.HangUpStopsLoop | late-ssh/src/ssh.rs:1183-1213 | after a hang-up nothing is handled or drawn in any continuation; at most a pass under way ends and one more begins |
| RenderLoop.WorldAdvancesPerTick | late-ssh/src/ssh.rs:1316-1322 | in every run the world was advanced once for every tick pass, but for one under way or ended in, and never for another pass |
| RenderLoop.TickComesFirst | late-ssh/src/ssh.rs:1245-1267 | in every tick interval in which the loop renders at all it begins with a tick pass, whatever floods in |
| RenderLoop.RendersArePaidFor | late-ssh/src/ssh.rs:1268-1297 | the loop is armed only while `dirty` is up, and throttled passes never outnumber the times it was raised |
| RenderLoop.DrainRuns | late-ssh/src/ssh.rs:1299-1330 | the drain loop handles inputs up to the first that quits and leaves the rest queued |
| RenderLoop.Drain | late-ssh/src/ssh.rs:1299-1330 | the same loop in place: what is handled, what stays, and whether the app still runs |
| RenderLoop.RenderSignal.Wake | late-ssh/src/render_signal.rs:24-27 | stores `dirty` and then posts the permit, as two steps of the machine, for callers with and without queued input |
| RenderLoop.RenderSignal.NextRenderAction | late-ssh/src/ssh.rs:1268-1297 | one poll of the select makes exactly the machine's steps, with the tick before the throttle before the permit |
| ArtboardPersistence.StepKeepsInv | late-ssh/src/dartboard.rs:375-490 | every atomic action of savers, restores, flushes and the persist thread keeps the invariant, whatever the database does |
| ArtboardPersistence.QuiescentMeansDurable | late-ssh/src/dartboard.rs:375-456 | parked on an empty channel with no saver about to notify: nothing is dirty, every save was written, and the row shows the last save iff no late write overtook it |
| ArtboardPersistence.CleanExitMeansDurable | late-ssh/src/dartboard.rs:375-415 | the same at thread exit when the last flush had no database error |
| ArtboardPersistence.ExitIsCleanIff | late-ssh/src/dartboard.rs:375-456 | a thread that has ended did so cleanly iff no database call of its last flush failed; then every save is written and the row shows the newest iff it was not overtaken |
| ArtboardPersistence.ThreadEndsAfterDisconnect | late-ssh/src/dartboard.rs:375-415 | once the thread notices that the sender is gone it flushes once more and ends, in at most five steps and stuck before only on the lock |
| ArtboardPersistence.LastDrawingIsPersisted | late-ssh/src/dartboard.rs:102-112 | in every run with a save, when the thread is parked with nothing to notify it or has ended without an error in its last flush, the row shows the picture drawn or restored last, unless it was overtaken |
| ArtboardPersistence.ShutdownFlushWrites | late-ssh/src/dartboard.rs:142-155 | a shutdown flush that lands writes the board live when it was taken, whatever happens in between; with no save since, the live picture |
| ArtboardPersistence.RestoreWritesItsBoard | late-ssh/src/dartboard.rs:157-178 | a restore that lands writes both halves of the board it was given, whatever is drawn meanwhile |
| ArtboardPersistence.NotificationsAreFew | late-ssh/src/dartboard.rs:102-112 | at most one notification is sent before the first copy and one more after each, however many saves |
| ArtboardPersistence.ThreadDoesNotSpin | late-ssh/src/dartboard.rs:375-415 | the thread flushes at most once for every notification taken, failure, save, and the end of the sender |
| ArtboardPersistence.OnlyLateWritesOvertake | late-ssh/src/dartboard.rs:142-178 | a step puts the row behind iff it is a landing restore or flush write older than the row |
| ArtboardPersistence.QuiescentMeansDurableWithoutLateWrites | late-ssh/src/dartboard.rs:102-112 | with savers and the persist thread alone quiescence always means durable |
| ArtboardPersistence.RestoreCanOvertake | late-ssh/src/dartboard.rs:157-178 | from every start a run in which a restore's late write leaves the row behind for good |
| ArtboardPersistence.OnePassPersists | late-ssh/src/dartboard.rs:417-490 | from any reachable parked dirty state one undisturbed pass writes the live board |
| ArtboardPersistence.WritesFollowSaves | late-ssh/src/dartboard.rs:417-490 | persist-thread writes show non-decreasing versions, strictly after an acknowledged one, so never more acknowledged writes than saves |
| ArtboardPersistence.UnacknowledgedWriteRepeats | late-ssh/src/dartboard.rs:442-452 | from every start a run with one save and two writes of it |
| ArtboardPersistence.RepeatsIff | late-ssh/src/dartboard.rs:417-490 | of two consecutive writes the second shows the same save iff the first was not acknowledged and no edit or restore saves between its version check and the copy for the second |
| ArtboardPersistence.EveryPairOfWrites | late-ssh/src/dartboard.rs:417-490 | every two consecutive writes of every run come from such a pair of attempts, so the same holds of them |
| ArtboardPersistence.RestoreIsAFence | late-ssh/src/dartboard.rs:157-178 | after a restore's locked section no persist-thread write shows an older board, and no write or row pairs a picture with provenance from the other side |
| ArtboardPersistence.PersistState.Save | late-ssh/src/dartboard.rs:102-112 | remembers the board and notifies exactly when nothing was dirty |
| ArtboardPersistence.PersistState.TakeCopy | late-ssh/src/dartboard.rs:417-456 | lowers `dirty` and takes the newest board with its version, if there is one |
| ArtboardPersistence.PersistState.RaiseAgain | late-ssh/src/dartboard.rs:417-456 | after a failed call raises `dirty` and puts the copy back unless a newer save came |
| Rollover.StepKeepsInv | late-ssh/src/dartboard.rs:320-373 | every database call and board access of the rollover keeps the invariant, edits and other writers of the main row interleaved anywhere |
| Rollover.CrashConsistent | late-ssh/src/dartboard.rs:320-373 | over all failures and retries the daily key is filled at most once and keeps that copy, blanking comes after it, and the monthly key is written at most once with the daily copy |
| Rollover.OrdinaryDayOnlyArchives | late-ssh/src/dartboard.rs:350-372 | on every day but the first of a month, over all failures and retries, nothing is blanked, neither the main row nor the monthly key is written, and the live board is what was drawn last |
| Rollover.AttemptEndsIff | late-ssh/src/dartboard.rs:320-373 | an attempt is given up iff its last database call failed: no failure is passed over and none made up |
| Rollover.AttemptSucceeds | late-ssh/src/dartboard.rs:320-373 | an attempt whose calls succeed has a bounded number of steps and always a next one until it is done, whatever happens beside it |
| Rollover.ArchiveIsFinal | late-ssh/src/dartboard.rs:320-373 | a stored daily copy never changes or goes away in any continuation |
| Rollover.PruneLeavesNewest | late-ssh/src/dartboard.rs:520-539 | an undisturbed prune leaves exactly the days with fewer than seven newer ones, unchanged |
| Rollover.RetryNeverPrunes | late-ssh/src/dartboard.rs:337-352 | once the daily copy is stored and the attempt has failed, no continuation archives or prunes for that day, so a failed prune is never resumed |
| Rollover.NewestAreKept | late-ssh/src/dartboard.rs:520-539 | a day with fewer than seven newer archived days is not pruned |
| Rollover.OldDayIsPruned | late-ssh/src/dartboard.rs:520-539 | with seven or more newer days it is |
| Rollover.BlankedOncePerLateFailure | late-ssh/src/dartboard.rs:191-230 | blankings number at most one more than failed writes after a blanking |
| Rollover.RetryBlanksIff | late-ssh/src/dartboard.rs:354-372 | in every completed continuation of a failed attempt, other writers of the main row included, the live board is blanked and the blank row written again iff the monthly key was left unwritten, once plus at most once for every further failure; nothing drawn since is archived under any key |
| Rollover.RetryErasesNewEdits | late-ssh/src/dartboard.rs:206-230 | from a fresh start a failed write, a drawing and the retry: the drawing ends neither live nor under any key |
| Rollover.CaptureIsTornByEdits | late-ssh/src/dartboard.rs:342-346 | the archived pair was live at some moment between the two reads iff the first picture and the last provenance then stood together; with no edit restoring the picture, iff the provenance is unchanged |
| Presence.StepConserves | late-ssh/src/ssh.rs:237-312 | every locked section of connect, authentication, session and drop conserves permits and both counts |
| Presence.StepKeepsSessions | late-ssh/src/ssh.rs:475-497 | every section keeps the listed sessions equal to the tracked ones, without duplicates |
| Presence.StepKeepsAway | late-ssh/src/app/state.rs:1922-1942 | every section keeps this: the away set holds the answers stored last, no answer is dropped, and the last answer is right iff it was founded |
| Presence.ConnectionsAreConserved | late-ssh/src/ssh.rs:402-451 | in every run each address count is its number of counted live handlers, within the limit and never a stored zero, and each user count its number of authenticated live handlers, absent at zero |
| Presence.SessionsAreConserved | late-ssh/src/ssh.rs:475-497 | the listed session tokens of a user are exactly those of its live handlers that tracked one, each once |
| Presence.AwaySetIsExact | late-ssh/src/state.rs:59-93 | in every run, once a user's updates are stored, the set is accurate iff being stale (another answer stored last) and being misled (the last answer unfounded) agree |
| Presence.AnswerIsRight | late-ssh/src/app/state.rs:1922-1942 | a command's answer is right iff it does not ask for away from an unlisted session while no session is away; a drop's answer always is |
| Presence.CommandMarksOne | late-ssh/src/app/state.rs:1922-1942 | a command sets the flag of its own session, away or back, and leaves every other session of every user as it was |
| Presence.AwayAndBack | late-ssh/src/app/state.rs:1946-1965 | away and back, both stored: the user is away after the first, and after the second iff another of its sessions is |
| Presence.LeaveTakesOwnSession | late-ssh/src/ssh.rs:402-451 | a drop takes its own session off the list; every other stays with the flag it had |
| Presence.AdmittedIff | late-ssh/src/ssh.rs:237-312 | a connection can authenticate iff a permit is left and its address has attempts and connections left; a refused one is never counted, present or listed in any continuation |
| Presence.AwaySetIsAccurate | late-ssh/src/state.rs:59-93 | in a run in which a user's updates never overlap the set is accurate, when none is under way, iff the last answer was founded |
| Presence.AccuracyRecovers | late-ssh/src/state.rs:82-93 | the same after any overlaps, from the first answer on that is computed in its turn |
| Presence.DepartedCanStayAway | late-ssh/src/ssh.rs:1083-1130 | from every start that admits connections: a command handled after its handler's drop leaves a user away with no session, without any overlap |
| Presence.OverlapCanLoseAway | late-ssh/src/ssh.rs:402-451 | from every start that admits two connections: a drop and an away command that overlap end with an away session and no away mark |
| Presence.ZeroLimitLeavesZeroEntry | late-ssh/src/ssh.rs:237-312 | a limit of zero leaves a zero entry behind |
| Presence.SharedState.NewClient | late-ssh/src/ssh.rs:237-312 | admission in place: permit, attempt verdict, per-address count, and the handler made |
| Presence.SharedState.CountAuthenticated | late-ssh/src/ssh.rs:580-606 | an accepted authentication adds one connection to the user's entry, or makes it |
| Presence.SharedState.TrackSession | late-ssh/src/ssh.rs:475-497 | a token is pushed once, and only for a present user |
| Presence.SharedState.LeaveUsers | late-ssh/src/ssh.rs:402-451 | a drop removes its session and connection, the entry with the last one, and answers whether the user stays away |
| Presence.SharedState.SetSessionAfk | late-ssh/src/app/state.rs:1922-1942 | marks the app's session, if listed, and answers whether the user is away |
| Presence.SharedState.StoreAfk | late-ssh/src/state.rs:82-93 | puts a user into the away set or takes it out |
| Presence.SharedState.ReleaseConnection | late-ssh/src/ssh.rs:402-451 | a drop gives back its address count, if it was counted, and its permit |
| PairedClients.EventKeepsInv | late-ssh/src/api.rs:434-475 | every websocket event keeps unique ids, gauges, usage and what clients were told |
| PairedClients.ClientsAreInformed | late-ssh/src/paired_clients.rs:210-243 | after every run each client was last told its current source, and Icecast allowed iff no client of its token is a CLI with output |
| PairedClients.MetricsAreConserved | late-ssh/src/paired_clients.rs:142-166 | after every run the gauge of a mode and platform is the number of registered CLIs that reported them; usage fires at most once per registration; ids are unique and no token has an empty list |
| PairedClients.EventChangesOnly | late-ssh/src/paired_clients.rs:288-331 | what each event does to each registration: state is what it last reported, source what its user last chose, usage recorded with the first report naming a CLI; nothing else changes |
| PairedClients.EventTellsOnly | late-ssh/src/paired_clients.rs:210-243 | which clients an event reaches: each gets one message, current as of then, and nobody else any |
| PairedClients.NewcomerIsTold | late-ssh/src/api.rs:314-350 | a newcomer gets one message, current with it registered |
| PairedClients.WebviewFlagAfterReport | late-ssh/src/api.rs:434-475 | the embedded-webview allowance stays current after a report iff the report is broadcast or leaves it as it was |
| PairedClients.BrowserArrivalIsNotBroadcast | late-ssh/src/api.rs:434-475 | a client that turns out to be a real browser leaves it stale |
| PairedClients.PairedClientRegistry.Register | late-ssh/src/paired_clients.rs:110-140 | a new entry under a fresh id, told its source and the current allowances, no other entry touched |
| PairedClients.PairedClientRegistry.BroadcastPlaybackSource | late-ssh/src/paired_clients.rs:210-243 | every entry of the token is told its own source with the derived allowances |
| PairedClients.PairedClientRegistry.Report | late-ssh/src/paired_clients.rs:288-331 | a report moves the gauges by its label change, counts usage once, and broadcasts on the source's condition |
| PairedClients.PairedClientRegistry.UnregisterIfMatch | late-ssh/src/paired_clients.rs:142-168 | removes exactly the matching registration, its gauge, and an emptied list |
| PairedClients.PairedClientRegistry.Release | late-ssh/src/api.rs:582-589 | unregisters and tells the remaining clients |
| PairedClients.PairedClientRegistry.SetSource | late-ssh/src/paired_clients.rs:391-418 | every entry of the user, under every token, gets the source and is told |
| PairedClients.AnyClaims | late-ssh/src/paired_clients.rs:496-498 | some entry is a CLI with Icecast output |
| PairedClients.AnyRealBrowser | late-ssh/src/paired_clients.rs:500-502 | some entry is a browser other than the webview |
| PairedClients.Position | late-ssh/src/paired_clients.rs:288-331 | the position of the first entry with the registration id, or the number of entries |
| RateLimit.LimiterIsExact | late-core/src/rate_limit.rs:51-73 | over every sequence of calls and cleanups the answers are those of the full-history rule: allow iff fewer than the maximum lie in the closed window |
| RateLimit.AllowIsExact | late-core/src/rate_limit.rs:51-73 | one call answers by that rule and keeps the queues a faithful tail of the history |
| RateLimit.PrunedCounts | late-core/src/rate_limit.rs:60-65 | the pruned queue is as long as the number of attempts in the window |
| RateLimit.CleanupIsInvisible | late-core/src/rate_limit.rs:37-49 | cleanup keeps the queues faithful |
| RateLimit.CleanupForgets | late-core/src/rate_limit.rs:37-49 | exactly the addresses with an allowed attempt in the window keep an entry |
| RateLimit.CleanupsDoNotMatter | late-core/src/rate_limit.rs:37-49 | removing all cleanups from a run changes no decision the limiter makes |
| RateLimit.IntervalsAreBounded | late-core/src/rate_limit.rs:51-73 | every closed interval of window length holds at most the maximum of allowed attempts of an address |
| RateLimit.IpRateLimiter.PopExpired | late-core/src/rate_limit.rs:60-65 | pops exactly the expired front of a queue |
| RateLimit.IpRateLimiter.Allow | late-core/src/rate_limit.rs:51-73 | answers and updates as the specification function |
| RateLimit.IpRateLimiter.Cleanup | late-core/src/rate_limit.rs:37-49 | prunes every queue and forgets the empty ones |
| HelperBackoff.StepKeepsInv | late-cli/src/ws.rs:141-330 | entering and leaving YouTube keep the crash-window and back-off invariant, whatever the helper does |
| HelperBackoff.MinutesAreBounded | late-cli/src/ws.rs:309-330 | every closed minute of every run holds at most four recorded failures |
| HelperBackoff.FourFailuresInAMinute | late-cli/src/ws.rs:309-330 | a run with four failures in one minute |
| HelperBackoff.TrackedMeansEnabled | late-cli/src/ws.rs:254-299 | a tracked child implies that no back-off is set and the limit is not reached |
| HelperBackoff.BackoffIsRespected | late-cli/src/ws.rs:281-299 | for five minutes after a disabling failure no start is attempted and no failure recorded |
| HelperBackoff.EnteringIsNeverSilent | late-cli/src/ws.rs:141-222 | asking for the helper leaves it tracked, or records an attempt or failure, unless the back-off is active |
| HelperBackoff.EnterOutcome | late-cli/src/ws.rs:141-222 | in every reachable state: a running helper is left alone; otherwise a death is recorded, and unless a disabling failure is less than five minutes old the helper is started, tracked iff that succeeds and a failure iff it does not |
| HelperBackoff.HelperOnlyWhileWanted | late-cli/src/ws.rs:141-252 | a helper is tracked only while the last request was for it |
| HelperBackoff.LeaveOutcome | late-cli/src/ws.rs:224-252 | leaving YouTube stops it and records nothing |
| HelperBackoff.ThirdFailureDisables | late-cli/src/ws.rs:309-330 | a failure disables the helper iff it is the third within a minute of the window's first |
| HelperBackoff.WebviewPlaybackController.EnterYoutube | late-cli/src/ws.rs:141-222 | the guards, the start and its five outcomes in place |
| HelperBackoff.WebviewPlaybackController.HelperIsRunning | late-cli/src/ws.rs:254-279 | a child found dead or not inspectable is let go and counted |
| HelperBackoff.WebviewPlaybackController.HelperBackoffActive | late-cli/src/ws.rs:281-299 | an expired back-off is forgotten together with the count |
| HelperBackoff.WebviewPlaybackController.RecordHelperFailure | late-cli/src/ws.rs:309-330 | counts in the anchored window and disables at the limit |
| HelperBackoff.WebviewPlaybackController.LeaveYoutube | late-cli/src/ws.rs:224-252 | any other source stops a tracked helper |
| TokenStream.ScanResumes | late-cli/src/ssh.rs:919-974 | scanning resumed with only the held-back bytes equals scanning the whole stream: chunk independence |
| TokenStream.FirstTokenLineIsRemoved | late-cli/src/ssh.rs:1291-1308 | exactly the first complete line with the prefix is taken out, and its trimmed remainder is the token |
| TokenStream.NothingElseIsRemoved | late-cli/src/ssh.rs:919-974 | without such a line all complete lines are shown and the partial last line is held back |
| TokenStream.EveryStreamSplits | late-cli/src/ssh.rs:919-974 | every stream is complete lines and one partial line |
| TokenStream.ShownOnlyGrows | late-cli/src/ssh.rs:919-974 | shown bytes are never taken back and a found token stays |
| TokenStream.TokenArrives | late-ssh/src/ssh.rs:1069-1077 | for every plain prefix the client gets exactly the token of the server's banner and shows everything else |
| TokenStream.SessionTokenArrives | late-cli/src/ssh.rs:1291-1308 | the same with the prefix server and client agree on |
| TokenStream.TokenOfLine | late-cli/src/ssh.rs:1291-1308 | a lossily decoded line carries the token iff its bytes start with the prefix |
| TokenStream.DrainPending | late-cli/src/ssh.rs:942-964 | the inner loop terminates with exactly what the buffered bytes show and hold back |
| TokenStream.ForwardSshOutput | late-cli/src/ssh.rs:919-974 | over all reads: bytes written, tokens sent (at most one) and ending are functions of the delivered stream; a failed read loses only what was held back |
| TokenStream.CutsDeliver | late-cli/src/ssh.rs:919-974 | however a stream is cut into non-empty reads, the same bytes are delivered |
| TokenStream.DeliveredIs | late-cli/src/ssh.rs:919-974 | delivered are all chunks before the first end or failure; interruptions end and lose nothing |
| Utf8.LossyPrefix | late-cli/src/ssh.rs:1296-1303 | lossy decoding keeps ASCII prefixes and their remainders, in both directions |
| Utf8.LossyOfEncode | late-ssh/src/ssh.rs:1072-1076 | encoded text survives lossy decoding, whatever follows |
| Utf8.StrictIff | late-ssh/src/ssh.rs:375-376 | strict decoding accepts exactly the bytes that encode a text, and gives that text |
| Utf8.MalformedIsMaximal | late-cli/src/ssh.rs:1296-1303 | what lossy decoding replaces is one byte or the maximal beginning of a character that is there |
| TomlConfig.StripTomlComment | late-cli/src/config.rs:397-413 | cuts at the first hash outside of strings, with escapes read as the scanner reads them |
| TomlConfig.ParseTomlString | late-cli/src/config.rs:415-447 | the unescaping loop, all its errors included |
| TomlConfig.ApplyLine | late-cli/src/config.rs:345-392 | one line: nothing, a section, no equals sign, an unknown key, or an assignment with its own errors |
| TomlConfig.ParseConfigLayer | late-cli/src/config.rs:341-395 | applies the lines in order and fails at the first wrong one with its number |
| TomlConfig.UnescapeEscaped | late-cli/src/config.rs:423-441 | the five escapes round trip for every string |
| TomlConfig.EveryStringIsPieces | late-cli/src/config.rs:423-441 | every text between quotes is plain characters and escapes up to its end or the first backslash that begins none; it means what they mean or is refused for that backslash |
| TomlConfig.UnterminatedIsRefused | late-cli/src/config.rs:415-447 | an opened string that is not closed, and an empty value, are refused |
| TomlConfig.CommentIsCut | late-cli/src/config.rs:397-413 | of a rendered assignment exactly the comment is cut, whatever the value contains |
| TomlConfig.LineRoundTrip | late-cli/src/config.rs:343-393 | a rendered assignment assigns exactly the rendered value |
| TomlConfig.FileRoundTrip | late-cli/src/config.rs:341-395 | reading a rendered file, with or without its last line feed, equals assigning its values in order |
| TomlConfig.LastValueWins | late-cli/src/config.rs:341-395 | each key ends with its last value and other keys with none; reading fails iff some value is not acceptable, at the first such line |
| TomlConfig.AssignIffAcceptable | late-cli/src/config.rs:366-389 | an assignment is refused iff it is a blank user or device or an unknown mode |
| TomlConfig.BlankLineIsSkipped | late-cli/src/config.rs:341-349 | white space and a comment do nothing |
| TomlConfig.SectionIsRefused | late-cli/src/config.rs:349-351 | a section header is refused, however indented and whatever follows |
| TomlConfig.UnknownKeyIsRefused | late-cli/src/config.rs:391 | an assignment to an unknown key is refused, however rendered |
| TomlConfig.TextIsRefused | late-cli/src/config.rs:352-354 | text without an equals sign is refused |
| TomlConfig.NamesAre | late-cli/src/config.rs:358-390 | the nine keys and four mode names, and no other key |
| Text.PortRoundTrip | late-cli/src/config.rs:360-365 | a numeral, with or without a plus sign, is a port iff it fits into 16 bits |
| Text.OnlyDigitsAreRead | late-cli/src/config.rs:360-365 | nothing else is one |
| ProxyHeader.ReadProxyV1 | late-ssh/src/ssh.rs:347-373 | takes exactly the bytes up to the first line break if it ends within 108, and otherwise fails in the way the code does |
| ProxyHeader.ProxiedHeaderIsRead | late-ssh/src/ssh.rs:347-400 | of a printed TCP4 or TCP6 header the reader takes exactly the line, whatever follows, and gives the printed source address and port, or refuses it as too long iff it is longer than 108 bytes |
| ProxyHeader.ProxiedHeaderFits | late-ssh/src/ssh.rs:41 | with addresses and ports as wide as the protocol's specification allows it is at most 104 bytes |
| ProxyHeader.UnknownHeaderIsRead | late-ssh/src/ssh.rs:347-400 | a printed UNKNOWN header is taken exactly and yields no address, whatever else is on its line, iff that leaves it within 108 bytes |
| ProxyHeader.AcceptedIff | late-ssh/src/ssh.rs:375-400 | a line gives an address iff it encodes six words for TCP4 or TCP6 with a source and a port, and none iff it is of an unknown connection; everything else is refused |
| Nonogram.DeriveLineClues | late-core/src/nonogram.rs:130-151 | the counting loop computes the clue function |
| Nonogram.CluesAreMaximalRuns | late-core/src/nonogram.rs:130-151 | clues are the saturated lengths, in order, of exactly the maximal runs of filled cells |
| Nonogram.ReversedClues | late-core/src/nonogram.rs:130-151 | reversing a line reverses its clues |
| Nonogram.DerivableIffFits | late-core/src/nonogram.rs:130-151 | a list is the clues of some line of a width iff its numbers are positive bytes that fit with gaps |
| Nonogram.PackingRoundTrip | late-core/src/nonogram.rs:130-151 | the leftmost packing of a clue list, padded to any width, has those clues |
| Nonogram.CluesCountFilled | late-core/src/nonogram.rs:137-144 | clues add up to the filled cells iff no run is longer than 255 |
| Nonogram.DeriveClues | late-core/src/nonogram.rs:110-128 | row clues and column clues of a grid whose rows reach as far as the first |
| Nonogram.ClueTotals | late-core/src/nonogram.rs:110-128 | on a rectangle each total is the number of filled cells iff no line of its direction has a run longer than 255 |
| Nonogram.RowAndColumnTotalsAgree | late-core/src/nonogram.rs:110-128 | with both sides at most 255 the row and column totals are both the number of filled cells |
| Nonogram.TransposeSwaps | late-core/src/nonogram.rs:110-128 | transposing swaps the clue lists iff the grid is empty or has a column |
| Nonogram.Validate | late-core/src/nonogram.rs:44-78 | accepts exactly the well-shaped binary puzzles with the right clues and otherwise names the first fault |
| Bridge.BridgeLoop | late-nethack/src/host.rs:274-327 | the select loop: the events it takes, why it stops, and whether it has reaped the child |
| Bridge.RunBridge | late-nethack/src/host.rs:216-272 | setup errors, loop, closing and teardown in order |
| Bridge.Task | late-nethack/src/host.rs:83-89 | an error of the bridge closes the channel from outside |
| Bridge.ChannelIsClosedOnce | late-nethack/src/host.rs:65-91 | on every path the channel gets one end of file and then one close, after all output; none while the bridge is up |
| Bridge.TeardownHasId | late-nethack/src/host.rs:238-256 | the loop never stops for a teardown with the child reaped, so the process id is there |
| Bridge.HangupBeforeKill | late-nethack/src/host.rs:232-262 | a child is killed once; the end is hangup, bounded wait, kill iff the loop stopped for teardown |
| Bridge.HangupIff | late-nethack/src/host.rs:274-327 | the game is hung up iff the host was shutting down at launch or the last event taken is a dropped host, refused output or a shutdown |
| Bridge.LoopEndsOn | late-nethack/src/host.rs:285-326 | input, output, a new size and a quiet or dropped watch never end the loop; it has ended iff a shutdown came first or the last event is one of the other six |
| Bridge.TakesEveryEvent | late-nethack/src/host.rs:285-326 | as long as it goes on it takes every event in order |
| Bridge.StopsAtFirstReason | late-nethack/src/host.rs:293-326 | the reason is that of the last event taken and no earlier event was one |
| Bridge.DroppedWatchIsQuiet | late-nethack/src/host.rs:289-325 | a dropped shutdown sender is noticed at most once and no watch event follows |
| Bridge.DeadWatchIsTransparent | late-nethack/src/host.rs:289-325 | with the arm disabled the loop behaves as if watch events were absent |
| FloodFill.Fill | scripts/gen_clubhouse_map.py:315-323 | the fill terminates with exactly the reachable cells, for every grid, start and walkability confined to the grid |
| FloodFill.Expand | scripts/gen_clubhouse_map.py:317-323 | one round adds the unseen walkable neighbours, each once, to set and queue |
| FloodFill.GeneratorIsStricter | scripts/gen_clubhouse_map.py:304-309 | what the generator reaches the game reaches |
| FloodFill.FloorIsOneRoom | scripts/gen_clubhouse_map.py:669-674 | from the spawn the game reaches exactly the floor without the alley, the generator exactly that without the counter |
| FloodFill.DistanceIsLeast | scripts/gen_clubhouse_map.py:588-599 | both zone distances are the least Chebyshev distance to a cell of the zone, zero iff inside |
| FloodFill.CheckedZonesAreNear | scripts/gen_clubhouse_map.py:341-343 | a zone the generator finds near a seen cell is near a cell the game's players reach |
| FloodFill.NearSeenIff | scripts/gen_clubhouse_map.py:341-343 | a zone counts as near iff one of its cells is within the distance of a seen cell |

## Assumptions

- Atomic flags, the single-permit notify, channels and locks behave as their documentation
  says; one locked section or one atomic operation is one step.
- Clocks are monotone; each reading is a parameter or a step.
- Replacing the canvas through the server handle calls `save` before it returns; versions are
  natural numbers that do not wrap.
- Each SSH handler accepts at most one authentication, session tokens are unique, and only SSH
  handlers and their apps touch the presence maps.
- A websocket event with its broadcast is one step of the paired-client registry.
- Archived days are listed newest first, and fewer than seven later days are archived when a
  day's rollover starts; `Rollover.OldDayIsPruned` shows what happens otherwise.

## Left out

- PairedClients.ClientsAreInformed: covers the source and the Icecast allowance; the embedded-webview allowance is refreshed through a session message whose handler is not part of this model.
- HelperBackoff.WebviewPlaybackController.EnterYoutube: the helper's log path and environment are not modelled.
- The control flow of the persist thread, the render loop and the rollover as loops: they are step machines, and only the parts they do under one lock are written in place.
- What the app draws, session and room logic, chat, and everything in `late-ssh/src/app`.
- The retry timer and date arithmetic of the rollover: days are numbers and a retry is a new attempt at any time.
- Database contents other than the artboard rows, decoding of stored JSON (a failed decode is a failed call), and all SQL.
- The web tunnel, which also tracks sessions and presence; bans and user creation during authentication.
- Mute policy, viz frames, clipboard images, voice clients and stream selection in the paired-client socket.
- Starting and killing processes: a start has five outcomes, and a child that could not be killed or inspected is only let go.
- Failing writes to the terminal in the token filter; they end it with an error.
- Key file, audio device and mode values beyond storing them; command line and environment layers; message texts of configuration errors.
- The syntax of IP addresses in PROXY headers: any parser may be passed in; trusted-proxy checks.
- Puzzle packs and the daily choice of a puzzle.
- Terminal modes, window size and process environment of the NetHack child; the detached reader thread.
- The props, seats and text of the clubhouse map; only walkability, reachability and zone distances are modelled.
- Themes: finite colour tables, and brightness arithmetic over 256 values.
- Audio analysis: floating point throughout, over a transform from a library that is not part of this model.
- The DOPEWARS host: the NetHack bridge once more, with fewer cases.
- Metrics back-ends and key derivation: calls into libraries that are not part of this model.
