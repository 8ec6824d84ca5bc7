# The desktop layer of PhantomChat, verified

This project models the Electron layer of PhantomChat in Dafny and proves what its design promises: who may run
tools on this PC and for how long, that a bridge call gets the answer to its own request, that a log cannot be
forged and keeps enough, that quoting survives two shells, and what the settings state machines keep over every
run. Everything between two awaits of the source is one step, and steps interleave freely.

How the files fit together:

- `LocalAccess`, `LocalToolsHost`, `LocalToolsRuns`, `LocalToolsGate`: the per-contact switch, the replay memory and
  the host that runs a remote contact's tools; the last two files hold the theorems over runs with crashes and
  reloads, the gate written out over state and message among them.
- `Framing`, `HostClient`, `Pipeline`, `PendingCalls`: newline framing, the client object, and the whole bridge (client,
  pipes, every host process ever spawned) refining calls answered in one step; what becomes of each single call.
- `Dispatch`: the dispatcher's tables, caps, timers and cancellation.
- `LogRotation`, `LogDetail`, `LogFormat`, `LogFile`, `Liveness`, `LivenessReports`, `RateLimiter`: the diagnostics of
  `electron/diagnostics.ts`; `LogFile` joins format and rotation over UTF-8 bytes.
- `ShellQuoting`, `DesktopEntry`: the two quoting layers, each against an independent reader.
- `VoiceModels`, `VoiceSaves`, `VoiceContacts`, `VoiceKeys`, `KeyCipher`, `DecisionModel`, `DecisionModelSaves`,
  `Embeddings`, `EmbeddingsSaves`: the settings state machines, where keys go, and what each save keeps of its form.
- `UpdateNotify`, `Updater`, `UpdaterHistory`, `UpdateFeed`: the update notification, its fields told by the events, and
  the update feed.
- `Basics`, `Texts`: optional values, decoded JSON, trimming.

Most stateful files have the same shape. A datatype is the state, `Step` is one event, a class with the source's
fields has methods proved equal to `Step`, and a `Trace` is any sequence of states linked by `Step`; the theorems
are about every trace. Bridge calls, dialogs, ciphers, timers and file failures arrive as the events' arguments.

Seven results say that the code falls short of what one would expect of it; each has an exact condition:

- `setLocalAccess` answers "off" without looking at the switch while nobody has signed in or the contact is the
  signed-in identity. So OFF takes effect exactly unless the switch is on and one of these holds
  (`LocalToolsRuns.OffTakesEffectExactlyWhen`, reached in `LocalToolsRuns.OwnerlessSwitchStaysOn` and
  `LocalToolsRuns.OwnerCanBeSwitchedOn`).
- The replay memory is the owner's: an unexpired call is refused as a replay exactly while no other identity has
  signed in since it started (`LocalToolsRuns.ReplayIsRefusedExactlyInItsEpoch`). After signing in as someone else
  and back, and switching the contact on again, the same message runs a second time
  (`LocalToolsRuns.ARunStartsTwice`).
- "Remind me later" is kept on every continuation exactly when no check that will spend the snooze is in flight at
  the press (`Updater.RemindLaterHolds`); a launch just after an earlier snooze ended is such a moment
  (`Updater.ALaunchedAppBreaksThePromise`).
- A failed first voice override of a contact leaves an entry that is present and undefined. From then on every save
  of the voice defaults throws, until that contact is changed again or the app restarts
  (`VoiceModels.FailedOverrideBlocksEverySave`, with the exact condition in `VoiceModels.SaveGoesThroughExactlyWhen`),
  and other contacts' overrides are lost in memory by the save that threw (`VoiceModels.FailedSaveChangesExactly`).
- A contact's voice change that is taken back leaves memory and file at odds exactly when a remote contact was saved
  meanwhile and the entry taken back differs from the one restored, or none was saved and they were at odds before
  (`VoiceModels.TakenBackStaysInTheFileExactlyWhen`, reached in `VoiceModels.TakenBackOverrideMayStayInTheFile`).
- Saving a remote contact's choice makes its later plans come out as accepted exactly if each direction that is on was
  named in the choice or had no model of its own. A direction left out is planned with the contact's own model and
  then loses it (`VoiceSaves.RemoteSaveKeepsThePlanExactlyWhen`, reached in `VoiceSaves.ALeftOutModelIsLost`).
- A typed URL with a blank before its last slashes is cleaned twice, and the second time it is another endpoint in
  the code's own sense, so the first save of it sends the key elsewhere. By the code's own endpoints, saving a URL
  keeps every key with its endpoint on every run exactly when the URL is not of that kind
  (`Embeddings.ExactExactlyWhenNothingSlips`, `VoiceKeys.ExactExactlyWhenNothingSlips`). Up to outer blanks and
  trailing slashes, keys stay with their endpoint on every run.

## Model

| member | source | states |
|---|---|---|
| LocalAccess.SavedStateReadsBack | electron/localTools/localAccess.ts:35-48 | Parsing what the host wrote gives the same owner, switches and replay memory, and the same device id when it is well formed, so a restart loses nothing |
| LocalAccess.ParseTotal | electron/localTools/localAccess.ts:35-48 | Whatever JSON is in the file, the parsed state has only well-formed public keys, and two readings of one file differ at most in a freshly drawn device id |
| LocalAccess.SeenKeyInjective | electron/localTools/localAccess.ts:92-95 | For public keys as senders, equal memory keys mean equal sender and equal call id: one contact cannot burn another's id |
| LocalAccess.ReadEnabled | electron/localTools/localAccess.ts:41-43 | The loop over the stored switches keeps exactly the public keys with a number |
| LocalAccess.ReadSeen | electron/localTools/localAccess.ts:44-46 | The loop over the stored calls keeps exactly the numbers, but for `__proto__` |
| LocalAccess.LocalAccessState.FromFile | electron/localTools/localAccess.ts:35-48 | The state object built from a file is the parsed file |
| LocalAccess.LocalAccessState.SetOwner | electron/localTools/localAccess.ts:50-58 | Another identity clears switches and replay memory in place and is told whether any switch was on; the same identity changes nothing |
| LocalAccess.LocalAccessState.RememberCall | electron/localTools/localAccess.ts:130-135 | Drops exactly the expired entries and records the call's expiry under its sender and id |
| LocalToolsHost.LocalToolsHost.constructor | electron/localTools/host.ts:81-91 | The host starts with the file's state, no run, and writes a file where there was none |
| LocalToolsHost.LocalToolsHost.SetOwner | electron/localTools/host.ts:108-113 | A valid identity becomes the owner in memory and file; if it is another one, switches and replay memory go, and every run is cancelled exactly when there was a switch to clear |
| LocalToolsHost.LocalToolsHost.SetLocalAccess | electron/localTools/host.ts:134-148 | OFF clears the switch, writes it and cancels that contact's runs and no other; ON only opens the dialog; refusals change nothing |
| LocalToolsHost.LocalToolsHost.DialogAnswered | electron/localTools/host.ts:138-143 | Only Allow turns the switch on, and the state it is written into is the one at that moment |
| LocalToolsHost.LocalToolsHost.Cancel | electron/localTools/host.ts:200-222 | The in-place loop marks exactly the runs that match the sender and call id it was given, and removes none |
| LocalToolsHost.LocalToolsHost.HandleMessage | electron/localTools/host.ts:151-175 | A hello is answered only to an enabled contact, a cancel marks only the sender's own runs of that id, a call goes to the gate, and anything else changes nothing |
| LocalToolsHost.LocalToolsHost.HandleCall | electron/localTools/host.ts:160-171 | A call is handled as the gate and the cap decide, which `LocalToolsGate.MessageIsAnsweredExactlyWhen` writes out; a busy refusal is not remembered |
| LocalToolsHost.LocalToolsHost.Finish | electron/localTools/host.ts:181-198 | A settled run removes its own entry and nothing else; it answers what the engine returned, or a thrown error as an error with its message, and if it was marked while it ran only the status changes, to `cancelled` |
| LocalToolsHost.ChunkResult | electron/localTools/host.ts:40-49 | The chunks join back to the encoded result, are numbered in order with the right total, are full except the last, and there is at least one |
| LocalToolsRuns.RunsStayHealthy | electron/localTools/host.ts:76-222 | On every run the file equals the memory, at most eight calls run, cancelled ones included, and every uncancelled run's sender has the switch on |
| LocalToolsRuns.RestartKeepsAccess | electron/localTools/host.ts:81-106 | A crash at any point keeps owner, switches and replay memory |
| LocalToolsRuns.NoReplay | electron/localTools/localAccess.ts:109-135 | Within one owner's epoch, across pruning, crashes and reloads: after a call id of a sender started with an expiry, none with that id starts before it |
| LocalToolsRuns.NoMessageRunsTwice | electron/localTools/host.ts:160-170 | Within one epoch the same message never starts twice |
| LocalToolsRuns.RunRemembers | electron/localTools/localAccess.ts:130-135 | A remembered call stays remembered on every run until its expiry has passed |
| LocalToolsRuns.NewEpochForgets | electron/localTools/localAccess.ts:51-58 | Right after a sign-in as someone else and back no call is remembered and every switch is off, so only the switch stops a replay |
| LocalToolsRuns.StaysForgotten | electron/localTools/localAccess.ts:51-58 | What an owner change forgets comes back only with a new admission of that call, never by a crash or a reload |
| LocalToolsRuns.MemoryLastsExactlyItsEpoch | electron/localTools/localAccess.ts:50-135 | A started, unexpired call that was not admitted anew is remembered exactly while no other owner has signed in, through pruning, crashes and reloads |
| LocalToolsRuns.ReplayIsRefusedExactlyInItsEpoch | electron/localTools/localAccess.ts:109-128 | With the gate's other conditions met, the group test included, such a call is refused as a replay exactly within its epoch and admitted exactly after it |
| LocalToolsRuns.SameMessageStartsAgain | electron/localTools/host.ts:109-170 | For any owner, another identity, a contact other than the owner, any moment, and any call that parses, passes the group test and expires within the next ten minutes: a run on which the same message starts twice before its expiry |
| LocalToolsRuns.ARunStartsTwice | electron/localTools/host.ts:109-170 | Such identities and such a call exist |
| LocalToolsRuns.StepAndOneRun | electron/localTools/host.ts:109-222 | Each event registers a run, carries it over, or cancels it exactly when it is a revoking one |
| LocalToolsRuns.RunHistory | electron/localTools/host.ts:181-222 | From its start to now a run was cancelled exactly if a revoking event came in between, and an uncancelled one was permitted throughout |
| LocalToolsRuns.RevocationIsTotal | electron/localTools/host.ts:109-222 | A reply that does not say `cancelled` means the sender's switch was on under one owner at every moment from start to finish; one that does is the engine's or a revocation's |
| LocalToolsRuns.RepliesByCases | electron/localTools/host.ts:181-198 | On every run a reply's status is `cancelled` exactly if something revoked the run in between, else the engine's own, or `error` where it threw; output, exit code and truncation are always the engine's |
| LocalToolsRuns.OffTakesEffectExactlyWhen | electron/localTools/host.ts:134-147 | Asking for OFF is always answered "off", and leaves the switch off exactly unless it is on and there is no owner or the contact is the owner; off means every run of the contact is cancelled, and nobody else's is touched |
| LocalToolsRuns.OwnerlessSwitchStaysOn | electron/localTools/host.ts:134-135 | The first exception is reachable for every contact: a file with its switch and no owner |
| LocalToolsRuns.OwnerCanBeSwitchedOn | electron/localTools/host.ts:134-143 | That exception is reachable: dialog open, that contact's identity signs in, Allow |
| LocalToolsGate.CallIsTheMessagesOwn | electron/localTools/localAccess.ts:79-90 | A message reads as a call exactly if every field of the call is the message's own, of the asked shape, with one of the seven tools; so tool and arguments are the sender's |
| LocalToolsGate.MessageIsAnsweredExactlyWhen | electron/localTools/host.ts:151-171 | A message starts a run exactly if its sender is a public key with its switch on under an owner, the call is for this PC, unexpired and of at most ten minutes, not remembered, from a session of the sender's if from a group, and fewer than eight run; it is told busy exactly if only the last fails, and of this PC exactly for a hello from an enabled contact |
| LocalToolsGate.MessageLeaves | electron/localTools/host.ts:151-206 | A started call is a new uncancelled run, remembered to its expiry and in the file, and the older memory loses exactly what has expired; any other message changes nothing but the sender's own runs it cancels |
| LocalToolsGate.EveryStartIsAllowed | electron/localTools/host.ts:160-170 | On every run each started call met all of these conditions in the state its message found |
| LocalToolsGate.SwitchChangesExactlyBy | electron/localTools/host.ts:109-148 | A switch goes on exactly by an Allow that was asked for, with the time of that moment, and off exactly by an accepted OFF or another owner; the owner is the last identity signed in |
| LocalToolsGate.SwitchIsOnExactlyWhen | electron/localTools/host.ts:76-148 | On every run, through crashes, a switch is on exactly if an Allow put it on and no OFF or owner change came since, or the file had it on and none came at all |
| LocalToolsGate.DialogWasAskedFor | electron/localTools/host.ts:134-139 | An open dialog was asked for earlier, for a contact that was off and is not the signed-in owner |
| LocalToolsGate.PageIsTold | electron/localTools/host.ts:134-147 | The dialog opens exactly for a contact that can be asked about, "revoked" is sent exactly if the switch went off, and what the page is told of the switch is true but for the two exceptions of OFF |
| LocalToolsGate.PageIsToldOfTheDialog | electron/localTools/host.ts:138-143 | The capability is sent exactly by an Allow, and the page is told the truth about a switch that was off when asked |
| Framing.LineReader.Feed | electron/phantombot/host.ts:77-94 | One chunk hands on exactly the non-blank trimmed lines it completes, in order, and keeps the unfinished tail |
| Framing.LineReader.FeedAll | electron/phantombot/host.ts:74-94 | For every split into chunks the lines handed on are those of the whole input and the buffer is its tail |
| Framing.CutAppend | electron/phantombot/host.ts:78-82 | Cutting a text into lines can stop anywhere and go on from the tail |
| Framing.ChunkingDoesNotMatter | electron/phantombot/host.ts:74-94 | The lines and the tail depend on the concatenation of the chunks alone |
| Framing.PrefixOfLines | electron/phantombot/host.ts:77-94 | Reading any prefix of written requests gives whole requests in order and leaves exactly the rest |
| Framing.LinesRoundTrip | electron/phantombot/client.ts:169 | Whatever the chunking, the reader recovers exactly the encoded requests, in order, with an empty buffer |
| HostClient.PhantombotHostClient.Call | electron/phantombot/client.ts:158-173 | A call takes the next id, spawns a host if there is none, and is pending, or refused at once when its turn id is already streaming |
| HostClient.PhantombotHostClient.OnLine | electron/phantombot/client.ts:130-155 | An answer, a value or an error, takes exactly the pending call of its id out of the table, with its own listener, and settles it with that answer; every other line changes nothing |
| HostClient.PhantombotHostClient.OnExit | electron/phantombot/client.ts:113-121 | The current host's exit settles every pending call with its reason and forgets all listeners; an old host's exit changes nothing |
| Pipeline.ALawfulCodecExists | electron/phantombot/client.ts:169 | What the bridge's theorems ask of the request encoding, one trimmed line that decodes back to the request, can be had |
| Pipeline.ReadsOwnRequests | electron/phantombot/host.ts:77-94 | Whatever part of its stdin a host has read, its tasks are requests the client issued, each under its own id |
| Pipeline.RefinesAtomicRpc | electron/phantombot/client.ts:87-180 | Every event of client, pipes and hosts is one step, or none, of calls answered atomically |
| Pipeline.RunRefines | electron/phantombot/client.ts:87-180 | The same along every run, with the invariant that carries it |
| Pipeline.AnswersAreOwn | electron/phantombot/client.ts:146-154 | A call settled by a host got an answer the dispatcher may give to that very request, by its id, method and params, for every reply order and restart |
| Pipeline.OutcomesAreFinal | electron/phantombot/client.ts:147-149 | A call settles at most once, and ids are never reused |
| Pipeline.ExitSettlesEverything | electron/phantombot/client.ts:114-121 | After the host's exit nothing is pending and every call made so far has settled |
| Pipeline.LateLinesSettleNothing | electron/phantombot/client.ts:111-121 | A line still in a dead host's pipe changes nothing |
| Pipeline.AutostartSettlesNothing | electron/phantombot/host.ts:132-153 | The host's own requests, with id -1, never settle a call |
| PendingCalls.AskIsRefusedExactlyWhen | electron/phantombot/client.ts:158-170 | A call spends the next id; it is refused on the spot exactly if an outstanding call listens to its turn, and otherwise is outstanding with its request last on the way to the current host |
| PendingCalls.AnswerSettles | electron/phantombot/client.ts:146-154 | On every run an answer heard for an outstanding call, value or error, settles it with that very answer and frees its listener, and touches no other call, outcome or listener |
| PendingCalls.ExitFails | electron/phantombot/client.ts:114-120 | The current host's exit settles each outstanding call with that exit's reason and no settled one |
| PendingCalls.StepAndOneCall | electron/phantombot/client.ts:87-180 | An outstanding call settles exactly by an answer that names it or the exit of its host |
| PendingCalls.PendingExactlyWhen | electron/phantombot/client.ts:87-180 | On every run a call is outstanding exactly if its turn was free when it was made, no answer to it has been heard since, and the host it was written to has not exited since |
| PendingCalls.OutstandingIsHeldOnce | electron/phantombot/client.ts:165-170 | No request is lost or doubled: while a call is outstanding its id is exactly once among what its host has yet to read, works on, or has yet to hand over |
| PendingCalls.AllInputIsTaken | electron/phantombot/host.ts:77-94 | A host that has read all its input has every request written to it among its tasks, in order |
| Dispatch.ToolRunner.Run | electron/phantombot/dispatch.ts:259-281 | A run is refused for want of a tool runner, a bad or taken id, a full table, or bad arguments, in that order; otherwise it is registered under its id, with its timeout capped, before any other line is handled |
| Dispatch.ToolRunner.Cancel | electron/phantombot/dispatch.ts:454-458 | Aborts exactly the run of that id and says whether there was one |
| Dispatch.ToolRunner.TimerFires | electron/phantombot/dispatch.ts:278-281 | The timer marks its run timed out and aborted |
| Dispatch.ToolRunner.Finish | electron/phantombot/dispatch.ts:283-293 | A finished run leaves the table alone and the others stay; a thrown error is answered as an error with its message, what the tool returned as it is, and a timer, or else an abort, changes only the status |
| Dispatch.ToolRunner.AbortAll | electron/phantombot/dispatch.ts:478-481 | Shutdown aborts every run and keeps every entry |
| Dispatch.ModelCalls.StartTurn | electron/phantombot/dispatch.ts:385-400 | A turn enters under the cap with its id, and a persona that throws leaves the counter as it was |
| Dispatch.ModelCalls.CancelTurn | electron/phantombot/dispatch.ts:423-427 | Cancels the stream of that id and says whether there was one |
| Dispatch.ModelCalls.FinishTurn | electron/phantombot/dispatch.ts:393-398 | A finished turn takes out its own entry and one from the counter |
| Dispatch.ModelCalls.StartPlain | electron/phantombot/dispatch.ts:297-307 | The other capped calls enter only while fewer than four are running |
| Dispatch.ModelCalls.FinishPlain | electron/phantombot/dispatch.ts:302-306 | A finished plain call takes exactly one from the counter and touches no turn |
| Dispatch.CapsHold | electron/phantombot/dispatch.ts:243-307 | On every run `modelCalls` is the number of capped calls begun and not ended, at most four, live turns never outnumber it, and at most eight tools run |
| Dispatch.RegisteredUntilDone | electron/phantombot/dispatch.ts:275-290 | A registered run stays until it is done and its marks say exactly whether its timer fired or something aborted it since |
| Dispatch.CancelFindsTheRun | electron/phantombot/dispatch.ts:454-458 | A cancel after the run's own line answers true exactly when the run is not over |
| Dispatch.StatusTellsTheHistory | electron/phantombot/dispatch.ts:282-293 | The reported status is determined by everything that happened to the run in between |
| Dispatch.CancelIsNeverLost | electron/phantombot/dispatch.ts:259-294 | A cancel that comes before the run is done says true, and that run ends `cancelled` or `timeout` |
| Dispatch.RepliesByCases | electron/phantombot/dispatch.ts:282-293 | On every run a reply's status is `timeout` exactly if the run's timer fired, else `cancelled` exactly if something aborted it, else the tool's own, or `error` where it threw; output, exit code and truncation are always the tool's |
| Dispatch.RunsExactlyWhen | electron/phantombot/dispatch.ts:259-281 | A run starts exactly when the host has tools, its id is free, fewer than eight run and the request is well formed; its timer is what was asked for, two minutes if nothing was, and never over ten |
| Dispatch.NoIdNoRun | electron/phantombot/dispatch.ts:259-270 | Without a usable id nothing starts and nothing is cancelled |
| Dispatch.TurnsRunExactlyWhile | electron/phantombot/dispatch.ts:385-400 | A turn is in the table exactly from the event that let it in to the one that ends it |
| Dispatch.ModelCallsEnterExactlyWhen | electron/phantombot/dispatch.ts:297-400 | A capped call gets in exactly if its arguments are valid, its turn id is free and fewer than four run |
| Dispatch.TurnCancelFindsTheTurn | electron/phantombot/dispatch.ts:423-427 | A cancel finds exactly a turn that was let in and has not ended, and stops its stream |
| Dispatch.TurnIsStoppedExactlyWhen | electron/phantombot/dispatch.ts:423-482 | A running turn has been told to stop exactly if a cancel of it or the shutdown came since it was let in |
| LogRotation.DiagnosticsLog.constructor | electron/diagnostics.ts:85-98 | The counter is the live file's size, measured again at each start, and at least one backup is kept |
| LogRotation.DiagnosticsLog.Write | electron/diagnostics.ts:112-125 | A write appends exactly its entry to the live file, after moving the files up if it would not fit, and keeps the counter equal to the live file's size |
| LogRotation.DiagnosticsLog.Rotate | electron/diagnostics.ts:127-136 | The rename loop moves every backup one place up, drops only the oldest, and frees the live place |
| LogRotation.PushIsWritten | electron/diagnostics.ts:112-136 | The directory after a write is the list of generations with the entry pushed, oldest dropped |
| LogRotation.KeepsAccount | electron/diagnostics.ts:112-136 | What every sequence of writes keeps: sizes, a contiguous suffix, and a full set of files once anything was dropped |
| LogRotation.LogIsASuffix | electron/diagnostics.ts:112-136 | From an empty directory, oldest backup to live file reads as a contiguous suffix of everything written, and a file of two or more entries is within the limit |
| LogRotation.PairsOverflow | electron/diagnostics.ts:119 | Any two adjacent files together exceed the limit, so p pairs hold more than p limits |
| LogRotation.EnoughIsKept | electron/diagnostics.ts:112-136 | Once anything was discarded, more than ⌊(keep+1)/2⌋ times the limit of the newest log is there after every write |
| LogFormat.PrintLogLine | electron/diagnostics.ts:47-60 | The loops over fields and detail lines print the header, one ` key=value` per field in order, and one margin line for each of a list of lines that shows the detail |
| LogDetail.DetailIsShown | electron/diagnostics.ts:53-58 | The printed lines joined have every visible character of the detail in order; without carriage returns they are the detail itself but for blank lines before and white space after |
| LogDetail.PlainDetailIsItself | electron/diagnostics.ts:53-58 | A detail without carriage returns that neither begins nor ends in white space joins back to exactly itself |
| LogDetail.NoBlankLineIsLeft | electron/diagnostics.ts:55 | The lines of a longer detail do not begin with a blank one |
| LogFormat.QuotedReadsBack | electron/diagnostics.ts:24-32 | A quoted value has no line end and a JSON reader gives the value back and stops at its closing quote, whatever follows |
| LogFormat.FieldsReadBack | electron/diagnostics.ts:49-51 | The fields of a header read back as the same (key, text) pairs in order: no value forges another pair |
| LogFormat.HeaderReadsBack | electron/diagnostics.ts:47-52 | A header line gives back time, level, event and fields |
| LogFormat.OneHeaderLine | electron/diagnostics.ts:42-60 | One event prints exactly one header line, and every other line starts with the margin, for any values and detail |
| LogFormat.LogReadsBack | electron/diagnostics.ts:42-60 | A whole log file parses back to exactly one record per event written, with its time, level, name and fields, and detail lines that show its detail |
| LogFile.TextReadsBack | electron/diagnostics.ts:118-120 | The UTF-8 bytes of any text decode to it |
| LogFile.LogOnDiskReadsBack | electron/diagnostics.ts:47-136 | Reading all files, oldest first, as bytes gives back exactly the newest events written, with every field and lines that show each detail, and if any are missing more than half the configured space of newer ones |
| LogFile.EveryFileReadsBack | electron/diagnostics.ts:112-136 | Each file on its own begins with the header of an event and reads back as a contiguous stretch of the events |
| Liveness.LivenessMonitor.OnBeat | electron/diagnostics.ts:263-289 | A beat ends an open heartbeat stall, begins or ends a frame stall by its wait and visibility, counts, and reports those in that order |
| Liveness.LivenessMonitor.OnCheck | electron/diagnostics.ts:292-328 | A check begins, extends or ends a lag run by its lateness and begins a heartbeat stall by the gap, each reported once, and nothing while suspended |
| Liveness.LivenessMonitor.OnSuspend | electron/diagnostics.ts:330-332 | A suspend stops the checks from judging and touches nothing else |
| Liveness.LivenessMonitor.OnResume | electron/diagnostics.ts:335-341 | A resume restarts every clock and drops an open lag run |
| Liveness.LivenessMonitor.OnReset | electron/diagnostics.ts:344-349 | A new renderer starts with no liveness state |
| Liveness.LivenessMonitor.OnSummary | electron/diagnostics.ts:352-365 | A summary reports the counters and zeroes them |
| Liveness.LogTellsOpenStalls | electron/diagnostics.ts:263-349 | Which stalls are open is exactly what the log, resets and resumes say |
| Liveness.StallsAlternate | electron/diagnostics.ts:263-349 | On every trace a begin is reported only while no stall of its kind is open, an end only while one is |
| Liveness.BeginsAreSeparated | electron/diagnostics.ts:334-349 | Between two begins lies an end, or a silent close: a reset for renderer stalls, a resume for main lag |
| Liveness.MissedMeansSilence | electron/diagnostics.ts:314-326 | A missed heartbeat is reported at a check exactly when the app is awake, a beat was seen, no stall is open, and no beat and no resume came within the applicable limit |
| Liveness.SummariesAddUp | electron/diagnostics.ts:352-365 | The summaries' stalls plus the current counter are the renderer stalls begun |
| Liveness.LateRunIsLate | electron/diagnostics.ts:295-303 | A run of late checks lasts at least that many intervals plus thresholds |
| Liveness.LagIsExact | electron/diagnostics.ts:292-312 | A recovery reports exactly the count, the maximum and the sum of the late checks before it, on every trace with suspends and resumes |
| LivenessReports.BeatReports | electron/diagnostics.ts:263-289 | What a beat writes, by the log and the inputs before it: the recovery of an open heartbeat stall with the time since the last sign of life before it, then the begin or the end of a frame stall with the wait, or the time since its frames stopped |
| LivenessReports.FramesBeginAndEndExactlyWhen | electron/diagnostics.ts:279-287 | A frame stall begins exactly at a beat of a visible page that has waited the limit while none is open, and ends exactly at a beat that has not waited it while one is |
| LivenessReports.CheckReports | electron/diagnostics.ts:292-328 | What a check writes, by the inputs before it: the first late check of a run or, in time again, the run's count, worst and sum; then a heartbeat as silent as the limit for the page's last visibility |
| LivenessReports.SummaryReports | electron/diagnostics.ts:330-365 | A summary writes the beats, the longest gap and the longest wait since the last one, the stalls begun, and whether one is open by the log; nothing but beats, checks and summaries writes anything |
| RateLimiter.RateLimiter.TakeNow | electron/diagnostics.ts:382-396 | A call a window after the last start opens a new one and reports the drops of the closed one; it is allowed while the count is below the limit and counted as dropped otherwise |
| RateLimiter.BurstBound | electron/diagnostics.ts:382-396 | At most twice the limit is allowed in any half-open interval one window long, for every non-decreasing sequence of times |
| RateLimiter.RefusedOnlyWhenFull | electron/diagnostics.ts:390-395 | A call is refused only when a full limit of calls less than one window old was allowed before it |
| RateLimiter.RefusalsAccounted | electron/diagnostics.ts:382-396 | The reported drops plus the current counter are all refusals |
| ShellQuoting.QuotedArgument | electron/updateRestart.ts:30-37 | A POSIX shell reads the quoted argument as exactly that text, wherever it stands and whatever it contains |
| ShellQuoting.HelperArgumentSplits | electron/updateRestart.ts:111-120 | The helper's last argument splits into `bash`, `-c` and the install command, whatever the command is |
| ShellQuoting.InstallCommandSplits | electron/updateRestart.ts:48-70 | For every package path and manager, the install command splits into the intended words, the path one of them |
| ShellQuoting.NestedQuotingRoundTrip | electron/updateRestart.ts:48-120 | Both levels at once: splitting twice gives the path back as one word |
| ShellQuoting.EveryAgentRunsTheSame | electron/updateRestart.ts:111-174 | Whichever agent obtains root, from words or from a command line, the same three words are run, and pid, executable and log stand where the helper reads them |
| ShellQuoting.ManagerIsTheFirstFound | electron/updateRestart.ts:48-70 | There is a command exactly if some manager is on the path, and it is for the first of them in the priority order |
| DesktopEntry.ReplacementsDoNotInterfere | electron/desktopIntegration.ts:35-43 | The five replacements in a row are one character-wise substitution |
| DesktopEntry.ExecTokenReadsBack | electron/desktopIntegration.ts:28-43 | A launcher that undoes the quoting of the Exec key gets exactly the path |
| VoiceModels.KeyStaysWithEndpoint | electron/voiceModels.ts:62-78 | Unless one is typed, a choice has a key only for the endpoint it was saved for, and an enabled choice is complete |
| VoiceModels.VoiceModels.CommitNow | electron/voiceModels.ts:100-112 | The loop prunes entry by entry in key order and throws at an undefined one with the earlier entries already pruned; past it, a failed write restores everything, else defaults, overrides and file are the new ones |
| VoiceModels.VoiceModels.BeginSave | electron/voiceModels.ts:85-112 | A save whose form is invalid changes nothing; an enabled direction waits for its provider check; with none enabled it commits at once |
| VoiceModels.VoiceModels.OnChecked | electron/voiceModels.ts:92-99 | A provider's answer rejects an unlisted model or voice, gives a saved draft the answered lists, and makes a contact's override for the current endpoint only after its voice has been proved too |
| VoiceModels.VoiceModels.OnContactLocated | electron/voiceModels.ts:172-191 | A contact change keeps disabled directions and asks only for models of the default's list |
| VoiceModels.VoiceModels.OnFails | electron/voiceModels.ts:194-199 | A failed contact change restores what was there, which may be nothing |
| VoiceModels.VoiceModels.OnSettles | electron/voiceModels.ts:192-199 | The override is kept only once it has been applied and written |
| VoiceModels.VoiceModels.ApplyNewPersona | electron/voiceModels.ts:128-143 | A new persona's old override goes only if some voice default is on |
| VoiceModels.VoiceModels.SaveRemoteNow | electron/voiceModels.ts:215-227 | A remote contact's models are saved only if the plan accepts them, outside the queue, and a failed write is not undone |
| VoiceModels.SaveGoesThroughExactlyWhen | electron/voiceModels.ts:100-112 | A save commits exactly when no entry is undefined and the file is written; then what fits the new defaults survives of every contact, else defaults and file are unchanged |
| VoiceModels.FailedSaveChangesExactly | electron/voiceModels.ts:100-112 | A save that does not go through changes no override if only the write failed, and if it threw exactly those, of the contacts listed before the first undefined entry, that do not fit the unsaved defaults |
| VoiceModels.OverridesStayCompatible | electron/voiceModels.ts:85-227 | On every run each override, in memory and in the file, has its default's endpoint and a model of its list, or, for a remote contact only, the default model |
| VoiceModels.RemotePlanAlwaysFindsItsModel | electron/voiceModels.ts:203-214 | On every run a plan without explicit models never fails its model check and plans the saved override |
| VoiceModels.OwnOverrideIsAlwaysApplied | electron/voiceModels.ts:145-154 | On every run the compatibility re-check passes for a persona's own override |
| VoiceModels.FailedFirstOverrideIsUndefined | electron/voiceModels.ts:192-199 | A first override that is taken back leaves an undefined entry |
| VoiceModels.AFailedChangeLeavesOne | electron/voiceModels.ts:171-199 | Such a run exists for every persona |
| VoiceModels.OnlyAFailedFirstOverrideIsUndefined | electron/voiceModels.ts:192-199 | No other event brings an undefined entry about: the step that makes the first one is the failure of a first override |
| VoiceModels.FailedOverrideBlocksEverySave | electron/voiceModels.ts:103-112 | From then until the next change for that persona or the next launch no save changes the defaults |
| VoiceModels.FileDuringTheChange | electron/voiceModels.ts:192-227 | While a change is applied, on every run, the file has the new entry exactly from the first accepted remote save on, and until then what it had |
| VoiceModels.TakenBackStaysInTheFileExactlyWhen | electron/voiceModels.ts:192-227 | A change taken back leaves memory and file at odds about the persona exactly when a remote contact was saved meanwhile and the entries differ, or nobody was and they were at odds before |
| VoiceModels.TakenBackOverrideMayStayInTheFile | electron/voiceModels.ts:192-227 | For every persona a run that does so: another model's override is taken back in memory and is there again after a relaunch |
| VoiceSaves.ChoiceIsTheForms | electron/voiceModels.ts:62-78 | A form is accepted exactly if it may be, and then as it is: its own flag, provider, cleaned URL, model and voice over the saved ones, its typed key or the one saved for the same place |
| VoiceSaves.DefaultsAreTheLastSavedForm | electron/voiceModels.ts:85-112 | On every run the defaults change only by the end of a save, to both directions of that save's own form, each that is on with the lists the provider answered when it accepted it, and the file has them |
| VoiceSaves.DefaultsAreListed | electron/voiceModels.ts:90-99 | On every run a default that is on is complete, with a model its provider listed unless it listed none and, to speak, a voice it listed, in memory and file |
| VoiceSaves.RemoteChoiceIsStored | electron/voiceModels.ts:215-227 | An accepted choice is stored for its contact alone, direction by direction: as it was where the default is off, the named model at the default's endpoint, or nothing; a refused one changes nothing |
| VoiceSaves.RemoteSaveKeepsThePlanExactlyWhen | electron/voiceModels.ts:203-227 | After a remote contact's choice is saved its plan comes out as accepted exactly if each direction that is on was named in the choice or had no model of its own |
| VoiceSaves.ALeftOutModelIsLost | electron/voiceModels.ts:203-227 | For every contact a run on which a direction left out is planned with the contact's own model and then loses it |
| VoiceContacts.ContactGetsWhatItAskedFor | electron/voiceModels.ts:171-199 | On every run a persona's change puts in place exactly what its page asked for: as it was where the default is off, nothing where no model is named, else the named model of the default's list at its endpoint, to speak with a voice the provider offers, the default one if it does |
| VoiceContacts.LocatedIsRefusedExactlyWhen | electron/voiceModels.ts:171-183 | A change is refused, and leaves everything as it was, exactly for a contact on another engine, a request that is no object, or a named model that a default that is on does not list |
| VoiceContacts.AppliedChangeIsKeptExactlyWhen | electron/voiceModels.ts:192-199 | A change that was applied and written is in the file with everything else in memory; one that was not is taken back and touches nothing else |
| VoiceContacts.NewPersonaHasNoOverride | electron/voiceModels.ts:128-143 | A new persona starts without the override an old one of its name left, in memory and file, and with voice off nothing happens |
| VoiceKeys.KeysStayWithTheirEndpoint | electron/voiceModels.ts:62-199 | On every run a call of the queue that carries a key for an endpoint carries one typed before in that direction's form for that endpoint, up to outer blanks and trailing slashes |
| VoiceKeys.CheckedKeysStayWithTheirEndpoint | electron/voiceModels.ts:79-84 | So does a check the page asks for at any moment, with its own form's key or an earlier one |
| VoiceKeys.ExactWhileNothingSlips | electron/voiceModels.ts:62-199 | The same, checks the page asks for included, by the code's own fingerprints on every run that saves no URL cleaned to one ending in a blank |
| VoiceKeys.OneSaveBreaksIt | electron/voiceModels.ts:74-92 | For every such URL the very first save has it checked with the key at another fingerprint |
| VoiceKeys.ExactExactlyWhenNothingSlips | electron/voiceModels.ts:62-199 | Saving a URL keeps every key with its fingerprint, in the queue's calls and the page's checks, on every run, exactly when the URL is not of that kind |
| KeyCipher.AFaithfulCipherExists | electron/decisionModel.ts:30-36 | What the key theorems ask of the cipher, that decryption undoes encryption, can be had |
| KeyCipher.SealedOpens | electron/decisionModel.ts:234-258 | A stored key opens again exactly when it could be stored and the cipher answers |
| DecisionModel.SettingReadsBack | electron/decisionModel.ts:84-96 | A written setting reads back as it was |
| DecisionModel.DecisionModelSettings.BeginSave | electron/decisionModel.ts:167-189 | An invalid form or a missing key saves nothing; a typed key is checked first, under its own provider; without one the setting is written at once |
| DecisionModel.DecisionModelSettings.OnVerdict | electron/decisionModel.ts:184-201 | A rejected key saves nothing |
| DecisionModel.DecisionModelSettings.ApplyToPersona | electron/decisionModel.ts:221-232 | Nothing is sent before a first save or where the model would be on without a key; else the persona gets off, or the saved provider and model with the stored key and no other |
| DecisionModel.KeysStayWithTheirProvider | electron/decisionModel.ts:142-232 | On every run a call that carries a key for a provider carries one the user typed for that provider |
| DecisionModel.MemoryIsTheFile | electron/decisionModel.ts:116-201 | On every run the setting in memory is the one the file reads as |
| DecisionModelSaves.DraftIsTheForms | electron/decisionModel.ts:167-183 | A form is accepted exactly if it is complete, and then as it is: its own flag, provider, trimmed model, and its typed key or the one saved for that provider |
| DecisionModelSaves.SaveIsAnsweredExactlyWhen | electron/decisionModel.ts:167-201 | A complete form with a typed key is checked with that very key and provider, one without is written at once, and anything else changes nothing |
| DecisionModelSaves.SettingIsTheWrittenForm | electron/decisionModel.ts:161-201 | On every run the setting changes only by a written save, to the form of the last save, with its key if that may be stored, and a typed key only once it was accepted |
| DecisionModelSaves.EveryPersonaGetsTheForm | electron/decisionModel.ts:202-215 | On every run every persona of a save's round is given the last saved form: off, or its provider and model with its key; the setting kept is the same |
| DecisionModelSaves.PageCheckAsksExactlyWhen | electron/decisionModel.ts:142-156 | The page's check asks exactly for the form's provider with its typed key, or the key saved for it, and nothing where there is none |
| DecisionModelSaves.AnyFileReads | electron/decisionModel.ts:84-96 | Any file reads as a setting the program could have written, or as none exactly if its flag or provider is unusable; an unusable model is the default one |
| Embeddings.SettingReadsBack | electron/embeddings.ts:74-92 | A written setting reads back as it was |
| Embeddings.EmbeddingsSettings.BeginSave | electron/embeddings.ts:193-215 | An invalid form saves nothing; turning off is written at once; turning on first asks the provider with the draft's own URL, key and model |
| Embeddings.EmbeddingsSettings.OnVerdict | electron/embeddings.ts:216-231 | Only a verified model is saved, with its dimensions, and a failed write changes nothing |
| Embeddings.EmbeddingsSettings.ApplyToPersona | electron/embeddings.ts:254-265 | Nothing is sent before a first save or where Gemini would be on without a key; else the persona gets off, or the saved setting in full with the stored key and no other |
| Embeddings.CheckIsConfined | electron/embeddings.ts:157-173 | A check sends a key typed with it or one kept for the same endpoint, by the code's own endpoints and up to blanks and slashes alike |
| Embeddings.KeysStayWithTheirEndpoint | electron/embeddings.ts:148-265 | On every run a call that carries a key for an endpoint carries one the user typed for it, up to outer blanks and trailing slashes |
| Embeddings.ExactWhileNothingSlips | electron/embeddings.ts:148-265 | The same by the code's own endpoints on every run that saves no URL cleaned to one ending in a blank |
| Embeddings.OneSaveBreaksIt | electron/embeddings.ts:193-214 | For every such URL the very first save sends the typed key to another endpoint |
| Embeddings.ExactExactlyWhenNothingSlips | electron/embeddings.ts:70-265 | Saving a URL keeps every key with the code's own endpoint, on every run, exactly when the URL is not of that kind |
| Embeddings.MemoryIsTheFile | electron/embeddings.ts:118-231 | On every run the setting in memory is the one the file reads as |
| Embeddings.SavedUrlKeepsItsEndpoint | electron/embeddings.ts:70-71 | Saving keeps the code's endpoint of a typed URL exactly when the cleaned URL does not end in a blank |
| Embeddings.ABlankBeforeTheSlash | electron/embeddings.ts:199 | `http://x /` is a URL of that kind |
| EmbeddingsSaves.DraftIsTheForms | electron/embeddings.ts:193-213 | A form is accepted exactly if it is complete, and then as it is: its own flag, provider, cleaned URL and model, its typed key or the one saved for that endpoint, and the saved dimensions if endpoint and model stay |
| EmbeddingsSaves.SaveIsAnsweredExactlyWhen | electron/embeddings.ts:193-231 | A complete form that turns embeddings on is checked with its own provider, URL, model and key; one that turns them off is written at once |
| EmbeddingsSaves.IncompleteFormIsRefused | electron/embeddings.ts:193-213 | A form that is not complete asks nothing and changes nothing |
| EmbeddingsSaves.SettingIsTheWrittenForm | electron/embeddings.ts:193-231 | On every run the setting changes only by a written save, to the form of the last save, one that is on only once its model has embedded and with the dimensions measured |
| EmbeddingsSaves.EveryPersonaGetsTheForm | electron/embeddings.ts:233-243 | On every run every persona of a save's round is given the last saved form with the dimensions its check measured: off, or its provider, URL and model with its key |
| EmbeddingsSaves.PageCheckAsksExactlyWhen | electron/embeddings.ts:157-173 | The page's check asks with the form's own provider, URL and model and its typed key or the one saved for that endpoint, and nothing where a field is too long or a URL is missing |
| EmbeddingsSaves.AnyFileReads | electron/embeddings.ts:74-92 | Any file reads as a setting the program could have written, or as none exactly if its flag, its provider or, but for Gemini, its model is unusable |
| UpdateNotify.WindowIsOpenOrClosed | electron/updateNotify.ts:55-137 | A snooze window is absent or bogus, open, or closed, never two of these, and an open one is closed by waiting its delay out |
| Updater.Updater.constructor | electron/updater.ts:517-551 | A launch reads the settings back, re-arms an open window, and starts an owning check for one that closed meanwhile |
| Updater.Updater.ArmSnoozeReAsk | electron/updater.ts:206-219 | The timer is armed for the end of an open window and for nothing else |
| Updater.Updater.RunCheck | electron/updater.ts:481-501 | A check starts unless one is in flight; an owning caller then still spends the window on a decided answer |
| Updater.Updater.OnSnoozeReAskFired | electron/updater.ts:245-272 | An early fire re-arms, an undecided one checks, a decided one spends the window and publishes |
| Updater.Updater.OnReleases | electron/updater.ts:391-424 | The API's answer is marked and published, pending only outside a snooze |
| Updater.Updater.OnSetChannel | electron/updater.ts:555-582 | Another ring forgets snooze, handled version and answer, and checks at once |
| Updater.Updater.OnRemindLater | electron/updater.ts:591-598 | The press persists one interval, silences, and arms the re-ask |
| Updater.Updater.OnDismiss | electron/updater.ts:602-607 | A dismissal disarms the re-ask, silences, and records the version on offer as dismissed; what that means afterwards is `UpdaterHistory.DismissalHolds` |
| Updater.RunStaysQuiet | electron/updater.ts:189-272 | Along every run inside the window nothing is pending and the window stays persisted in memory and file |
| Updater.Updater.FinishCheck | electron/updater.ts:240-243 | The end of a check spends the snooze window exactly if the check owned it and a decided answer stands |
| Updater.Updater.OnReleasesFailed | electron/updater.ts:391-401 | A failed answer sets the error status, ends the check and keeps the window |
| Updater.Updater.OnCheckSettled | electron/updater.ts:481-500 | However electron-updater's promise settles, the check ends, as an error if it threw |
| Updater.Updater.OnUpdateAvailable | electron/updater.ts:312-328 | An update being downloaded is marked and recorded and is never pending |
| Updater.Updater.OnUpdateDownloaded | electron/updater.ts:345-354 | A downloaded update is ready, and pending unless snoozed or already handled |
| Updater.Updater.OnUpdateNotAvailable | electron/updater.ts:330-339 | No update: marked, nothing available, nothing pending |
| Updater.Updater.OnUpdaterError | electron/updater.ts:356-365 | An error silences and keeps the snooze, the version and the check in flight |
| Updater.OwningCheckBreaksThePromise | electron/updater.ts:238-243 | With an owning check in flight at the press, a run inside the window, of events in the order the updater sends them, ends with a notification |
| Updater.LaunchOwnsTheCheckExactlyWhen | electron/updater.ts:551 | After a launch an owning check is in flight exactly when the persisted window closed while the app was not running |
| Updater.ALaunchedAppBreaksThePromise | electron/updater.ts:551-598 | So a press right after such a launch has a run inside its window that ends with a notification |
| Updater.RemindLaterHolds | electron/updater.ts:189-272 | The promise is kept on every continuation, through checks, downloads, dismissals, early fires and relaunches, exactly when no owning check was in flight at the press |
| Updater.ReAskDelivers | electron/updater.ts:229-272 | After the window a decided, unhandled, actionable update is raised and the window is spent in memory and file |
| UpdaterHistory.DismissalHolds | electron/updater.ts:602-607 | From a dismissal of a version on, on every run without a launch, another ring or the dismissal of another version, whatever is pending is a different version |
| UpdaterHistory.FoundIsRaisedExactlyWhen | electron/updater.ts:345-424 | On every run a version that a check makes ready to act on is pending exactly if it is not the version last dismissed and no snooze is open |
| UpdaterHistory.HandledIsLastDismissed | electron/updater.ts:555-607 | The version that counts as handled is the one on offer at the last dismissal of one since the last launch or change of ring |
| UpdaterHistory.PendingExactlyWhen | electron/updater.ts:206-607 | After any event the notification is pending exactly if the event found an undismissed version outside a snooze, or re-asks for one, or it was pending and nothing silenced it |
| UpdaterHistory.VersionExactlyBy | electron/updater.ts:312-607 | The version on offer is the last one found or announced, until an answer that there is none, another ring or a launch |
| UpdaterHistory.StatusExactlyBy | electron/updater.ts:300-607 | The status is the last thing that happened: a check begun, a version found, coming in or absent, a failure |
| UpdaterHistory.CheckedExactlyBy | electron/updater.ts:312-582 | The time of the last check is the time of the last answer, until another ring |
| UpdaterHistory.WindowExactlyBy | electron/updater.ts:229-598 | A snooze is opened by a press for a day and spent exactly by a re-ask, the end of an owning check with an answer, or another ring |
| UpdaterHistory.FlightExactlyBy | electron/updater.ts:481-590 | One check at a time, begun by the user, another ring or an owed reminder, and it owns the snooze exactly in the last case |
| UpdaterHistory.TimerExactlyBy | electron/updater.ts:206-607 | The re-ask is armed by a press, an early fire or a launch inside the window, for the window's end, and disarmed by a dismissal and another ring |
| UpdaterHistory.ReAskStaysArmed | electron/updater.ts:206-598 | From a press to the end of its day, through checks, presses and relaunches, the re-ask stays armed for the end of the window unless the window is spent |
| UpdaterHistory.StepPersists | electron/updateSettings.ts:53-125 | The update settings in memory are always what the file reads back as |
| UpdaterHistory.LaunchKeepsSettings | electron/updater.ts:517-551 | A relaunch keeps the ring, the last check and the window, whatever was under way |
| UpdaterHistory.AnotherRingStartsAfresh | electron/updater.ts:555-582 | Another ring forgets snooze, answer and dismissal, in the file too, with a check under way |
| UpdateFeed.CompareVersions | electron/updateFeed.ts:81-89 | The loop with its early return gives the first differing component |
| UpdateFeed.CompareIsLexicographic | electron/updateFeed.ts:75-89 | The order is by component value, and antisymmetric |
| UpdateFeed.CompareTransitive | electron/updateFeed.ts:81-89 | The order is transitive, and strict if either step is |
| UpdateFeed.PickReleaseForChannel | electron/updateFeed.ts:96-118 | The loop picks the first of the newest ring releases, or nothing exactly when the ring has none |
| UpdateFeed.OrderDoesNotMatter | electron/updateFeed.ts:91-95 | The version picked does not depend on the order of the list or repeats in it |
| UpdateFeed.PreviewIsNotOlder | electron/updateFeed.ts:96-118 | On one list the preview pick is never older than the stable pick |
| UpdateFeed.CollectReleasesForChannel | electron/updateFeed.ts:146-161 | Exactly the shortest prefix of the pages at which it may stop is collected |
| UpdateFeed.RingIsFound | electron/updateFeed.ts:128-145 | While pages are full, a ring release within the page bound always gives a pick |
| UpdateFeed.PreviewHearsWhatStableHears | electron/updateFeed.ts:171-175 | Whoever stable would notify on a list, preview would too |
| UpdateFeed.ToldExactlyWhenNewer | electron/updateFeed.ts:91-175 | The user is told exactly if the ring has a published release strictly newer than the running version, never of that version or an older one, and of none that another of the ring's releases beats |
| UpdateFeed.SpelledVersionsCompare | electron/updateFeed.ts:75-89 | Versions written with any digits compare as their three numbers do |

## Left out

- Electron itself: windows, tray, menus, preload, IPC registration, CSP, service worker and language tables.
- Real files, encryption, sockets, processes, signals and the JSON and regex engines. JSON is a decoded value, one
  JSON text has no raw newline, rename is atomic, and decryption undoes encryption. A bridge request's params are
  the JSON text they are sent as.
- Failing writes of the local-tools state and of the update settings; the voice, embeddings and decision-model
  files may fail to be written at any save.
- UTF-16 code units: characters are Unicode scalar values, so a surrogate cut in two by a chunk is not modelled,
  and neither is the host's streaming UTF-8 decoder.
- Numbers beyond the exact range of a double.
- `electron/localTools/host.ts`: the calls to the engine's own cancel, the activity callback, the tool log, and the
  device name and platform of the capability message.
- `electron/phantombot/client.ts`: readline on stdout, `shutdown`, `isAllowedCaller`, `checkRequest`. Nothing is
  claimed about turn events of a dead host, which are routed by turn id alone.
- `electron/phantombot/dispatch.ts`: the methods that only validate and forward, watch and unwatch, and the details
  of turn options.
- `electron/diagnostics.ts`: heartbeat payload validation, the session marker, and console mirroring; a field's
  value is the text it is printed from.
- LogFile.TextReadsBack: the decoder does not reject malformed UTF-8, which the log never holds.
- LogFormat.LogReadsBack: event names, times and keys are plain tokens, as every caller of the log writes them.
- `electron/updateRestart.ts`: the helper script's own text, the privilege agent's choice and the install latch.
- ShellQuoting.QuotedArgument: the reader covers sections 2.2.1 and 2.2.2 of the POSIX.1-2017 Shell Command
  Language, blanks and operators; it gives up on double quotes, expansions and comments, which the commands never
  contain unquoted.
- DesktopEntry.ExecTokenReadsBack: the Desktop Entry Specification's separate layer of string escapes, which the
  code does not apply.
- `electron/voiceModels.ts`: provider errors by text, what `get` and `contact` show, and the order in which an
  object lists its keys, which is any order.
- VoiceModels.FailedOverrideBlocksEverySave: a persona whose name begins with `remote:` is not covered, because a
  remote save can overwrite its entry.
- VoiceModels.TakenBackStaysInTheFileExactlyWhen: the same personas are not covered, for the same reason.
- VoiceContacts.ContactGetsWhatItAskedFor: the same personas are not covered, for the same reason.
- VoiceSaves.DefaultsAreListed: runs begin without a file, because a list put into the file by hand came from no provider.
- `electron/embeddings.ts`: `refreshAll`, which carries no key; the text of errors and of `state`.
- Embeddings.KeysStayWithTheirEndpoint: runs begin without a readable file, because a key put into the file by hand
  was typed for no endpoint.
- VoiceKeys.KeysStayWithTheirEndpoint: runs begin without a file, for the same reason; a key typed into a save counts from
  the moment the save gets its turn in the queue.
- DecisionModel.KeysStayWithTheirProvider: runs begin without a readable file, for the same reason.
- DecisionModelSaves.SettingIsTheWrittenForm: runs begin without a readable file, as for the keys; so do those of
  `EmbeddingsSaves.SettingIsTheWrittenForm`.
- `electron/updater.ts`: the check schedule, install paths, progress, error texts and release pages; checks,
  answers and the clock come as events, and the clock does not go back during a snooze.
- Updater.RemindLaterHolds: `notifyPending` is what stays false; it may be true while the status is `checking`.
- UpdateFeed.CompareVersions: versions of the strict three-number form only, which is all its callers pass.
- UpdateFeed.PickReleaseForChannel: URL parsing; whether a URL is a release page is part of the input. The pick is
  over what was fetched, so a newer release beyond the last page read is not seen.
- `electron/frontendProxy.ts`, `electron/permissions.ts`, `electron/presence.ts`, `electron/updateCapability.ts` and
  `electron/localPersonas/scan.ts`: they would only add easy members.
