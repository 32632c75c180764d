# A verified model of the mobile debugging server

The server drives mobile devices over a protocol of tool calls.  Under its device commands lie
state machines, codecs and indexes.  This project models them in Dafny and proves what they
keep over every run.

| file | what it models |
|---|---|
| `JdiWorker.dfy`, `WorkerRequests.dfy` | the Java debugger worker: stop epochs, held event sets, handles; its breakpoints and the event requests behind them and behind a step |
| `HostSession.dfy`, `DebuggerSessions.dfy`, `EventFeed.dfy` | the host side of a debugger session, the map of sessions, the event feed |
| `DebuggerProtocol.dfy`, `PauseAgreement.dfy` | host and worker joined by two pipes; when the host's pause is the worker's own |
| `Utf8.dfy`, `Json.dfy` | texts and their bytes with an incremental decoder, the two JSON printers and the worker's reader |
| `Framing.dfy`, `WorkerTransport.dfy`, `WorkerInput.dfy`, `BridgeChannel.dfy` | the host's line splitter with its limits, the pending-call table, the worker's input loop, and all of it together in both directions |
| `AndroidTrace.dfy`, `IosTrace.dfy`, `TraceRouter.dfy` | the two trace backends, one session each, and the router over both |
| `SnapshotDelta.dfy`, `SnapshotStore.dfy`, `ConditionalInput.dfy` | element records and deltas, revisions and history, the gate for conditional input |
| `Evidence.dfy` | freshness of observations among interleaved dispatches and captures |
| `UiTree.dfy`, `UiPreorder.dfy`, `UiSubtree.dfy` | flattening a UI forest, what the flat list means, collecting a subtree of any linked array |
| `Readiness.dfy` | the readiness tracker and the device blockers |
| `ResolvedElements.dfy`, `InteractionDiagnostics.dfy` | two bounded stores |
| `PerfettoConfig.dfy` | the protobuf encoder of the trace configuration |
| `Adjustment.dfy`, `ControlValues.dfy`, `ControlGeometry.dfy` | the adjustment loop, the value it aims at and the points it touches |

Conventions.  An object whose methods update its fields is a class; `View()` gives its fields as
a value, and every method states its new `View()` as a specification function of the old one.
The properties are lemmas about those functions: a step lemma for the invariant, and a lemma
over whole runs.  Code between two awaits is one step; native calls, timers and the other party
are actions with every outcome.  Hashes are injective (a signature is the data it is computed
from), identifiers are fresh, and clocks do not run backwards where a lemma says `Timely` or
compares with `clock`.

Results that differ from what one would expect of the code are stated as such:

* `JdiWorker.PartialReleaseResumesTwice`: a native error half-way through a release leaves event
  sets held that are already resumed, and the next release resumes them again.  Conservation
  holds exactly without that error (`JdiWorker.ActionKeepsInvExactly`).
* `WorkerRequests.RemovedStillCount`: a removed breakpoint goes on counting against the limit of a
  hundred, so a session can come to have nothing installed and refuse every breakpoint, for ever
  (`FullForEver`).
* `WorkerRequests.ActionKeepsMatchedExactly`, `ActionKeepsStepExactly`: the breakpoint requests in
  the VM match the worker's list exactly as long as no native error leaves one half made or half
  removed; no step request outlives a stop exactly as long as deleting it works and a step that
  made one is released.
* `DebuggerProtocol.DuplicateStopCrossesResume`: the host can be paused in an epoch that the
  worker has left, so the converse of `NoMissedPause` is false.
  `PauseAgreement.PauseIsTheWorkersExactly` says exactly when: as long as every accepted step or
  resume finds no stop of its epoch on the way to the host, nor one that has come in since the
  host gave that epoch up.
* `Framing.ChunkingMattersExactly`, `WorkerTransport.StreamShowsExactly`: the transport goes on
  handling lines after it has failed, so what it handles depends on the chunks that the decoder
  makes of the bytes, even without overflow, exactly when an acceptable line (for what shows: an event) follows a refused one from
  which on the rest of the stream is within the buffer's limit.  With overflow it depends on them
  in any case: the chunks before the overflow are handled and nothing after it
  (`WorkerTransport.OverflowCutsOff`).
* `IosTrace.CancelLeavesDanglingArtifact`: a cancel after a stop that failed past validation
  removes the directory but leaves the artifact reported.  `CancelLeavesDanglingExactly`: a cancel
  does so exactly when an artifact was reported before it.
* `AndroidTrace.CancelCompletesExactly`: one cancel with working calls completes a session
  exactly when the process found is the one the session owns; `ForeignProcessReached` is a run to
  the other case.
* `ResolvedElements.EmptyIdBlocksEviction`: an empty id that has become the oldest entry stops
  eviction; `RememberBoundedExactly` says exactly when one call keeps the bound.
* `ControlGeometry.InsideExactly`: the eight-pixel margin holds for all ratios exactly on tracks
  of at least seventeen pixels.
* `Adjustment.Adjusting.Attempt`: the check of the tolerance after the last strategy never
  succeeds.

## Model

| member | source | states |
|---|---|---|
| JdiWorker.SuspensionConserved | src/debugger/java/DebuggerWorker.java:29-35 | in every run without a half-way release: the unresumed sets are exactly the held ones, as many as there are, held is non-empty exactly in an epoch, and no set is resumed twice unless the VM is disposed |
| JdiWorker.ActionKeepsInvExactly | src/debugger/java/DebuggerWorker.java:49-135 | an action keeps suspension conserved if and only if it is not a command that gets as far as the release and there a resume throws after an earlier one |
| JdiWorker.EventSetKeepsInv | src/debugger/java/DebuggerWorker.java:54-69 | an event set is held if it stops, resumed at once otherwise, and either way suspension stays conserved and handles current |
| JdiWorker.ReleaseKeepsInv | src/debugger/java/DebuggerWorker.java:33 | a release resumes every held set once and ends the epoch; it breaks conservation exactly when a resume fails after the first |
| JdiWorker.PartialReleaseResumesTwice | src/debugger/java/DebuggerWorker.java:33 | a concrete run in which a set is resumed twice |
| JdiWorker.HandleAcceptedOnlyInItsEpoch | src/debugger/java/DebuggerWorker.java:109-128 | a command naming a thread or frame handle succeeds only in the epoch that issued the handle |
| JdiWorker.EpochsNeverReturn | src/debugger/java/DebuggerWorker.java:30-35 | after an epoch ends no run brings it back, so its handles are refused for ever |
| JdiWorker.DebuggerWorker.Release | src/debugger/java/DebuggerWorker.java:33 | the loop over held sets reaches the specified state, also when a resume throws |
| JdiWorker.DebuggerWorker.Finish | src/debugger/java/DebuggerWorker.java:73-79 | closing happens once: sets and handles dropped, one termination sent |
| JdiWorker.DebuggerWorker.TakeEventSet | src/debugger/java/DebuggerWorker.java:54-69 | one pass of the event loop under the lock: first stop opens an epoch, later ones join it, others resume |
| JdiWorker.DebuggerWorker.AddFrames | src/debugger/java/DebuggerWorker.java:111-115 | frames are registered one by one until the limit of a thousand refuses or a native call throws; those registered before stay |
| JdiWorker.DebuggerWorker.Run | src/debugger/java/DebuggerWorker.java:80-135 | every command changes epoch, held sets and handles as specified and answers or fails with the specified code; what it does to breakpoints and requests is in `WorkerRequests` |
| WorkerRequests.RequestsMatch | src/debugger/java/DebuggerWorker.java:32-108 | in every run, whatever throws: no breakpoint or class-prepare request is left for a removed breakpoint, a verified one lists a location, none twice; and without the errors named below each breakpoint has exactly one request per listed location, and there is no step request while the VM is paused |
| WorkerRequests.ActionKeepsMatchedExactly | src/debugger/java/DebuggerWorker.java:37-108 | an action keeps list and requests in agreement if and only if it does not leave a request made but not enabled, nor stop a removal between its deletions |
| WorkerRequests.ActionKeepsStepExactly | src/debugger/java/DebuggerWorker.java:32-132 | an action keeps the remembered step request the only one, and none while paused, if and only if it is not a stop whose deletion throws nor a step that makes its request without getting to the end of the release |
| WorkerRequests.BindTwice | src/debugger/java/DebuggerWorker.java:37-48 | binding again what a search found makes no request and changes nothing |
| WorkerRequests.RemoveKeeps | src/debugger/java/DebuggerWorker.java:102-108 | a removal that succeeds leaves no request, and one that throws breaks the agreement exactly when it did so half-way |
| WorkerRequests.FullForEver | src/debugger/java/DebuggerWorker.java:94-97 | after a hundred breakpoints every further one is refused, in every run |
| WorkerRequests.RemovedStillCount | src/debugger/java/DebuggerWorker.java:94-108 | a run after which nothing is installed and every breakpoint is refused |
| WorkerRequests.RequestTable.BindBreak | src/debugger/java/DebuggerWorker.java:37-48 | the loop over the found locations requests those not listed yet and stops where a call throws |
| WorkerRequests.RequestTable.SetBreakpoint | src/debugger/java/DebuggerWorker.java:94-101 | a breakpoint is listed before any call that may throw, then bound in each loaded class |
| WorkerRequests.RequestTable.OnPrepared | src/debugger/java/DebuggerWorker.java:59 | every breakpoint of a prepared class that is not removed is bound, in order |
| WorkerRequests.RequestTable.RemoveBreakpoint | src/debugger/java/DebuggerWorker.java:102-108 | the requests go one by one, then the class-prepare request, then the mark |
| HostSession.StepKeepsInv | src/debugger/sessions.ts:96-118 | every step keeps: paused exactly when a stop is set, a running pause clock while paused, resources held only where cleanup looks for them, one attach per session; and complete is never left |
| HostSession.SessionLeaksNothing | src/debugger/sessions.ts:215-261 | over all interleavings of attach, events, timers, commands and shutdown: a complete cleanup means no worker handle, no forwarded port and no timer, and paused means a stop |
| HostSession.RunKeepsInv | src/debugger/sessions.ts:215-261 | the invariant over whole runs, and a complete cleanup stays complete |
| HostSession.PauseClockNeverRestarts | src/debugger/sessions.ts:99-103 | no step moves the pause clock of a session that is paused before and after it |
| HostSession.DetachReleases | src/debugger/sessions.ts:294-299 | from every idle state one detach whose native calls succeed completes the cleanup |
| HostSession.DebuggerSession.Receive | src/debugger/sessions.ts:96-118 | a worker event updates state, stop, pause clock, queue and feed as specified |
| HostSession.DebuggerSession.StartCleanup | src/debugger/sessions.ts:215-232 | cleanup begins: terminal state remembered, stop and clock dropped, first release awaited |
| HostSession.DebuggerSession.ContinueCleanup | src/debugger/sessions.ts:226-261 | each awaited release either frees its resource or lists it as remaining |
| HostSession.DebuggerSession.ContinueAttach | src/debugger/sessions.ts:159-213 | each awaited attach step goes on, or fails into cleanup with what it had acquired |
| HostSession.DebuggerSession.ExecuteCommand | src/debugger/sessions.ts:283-312 | a command is refused, or starts with its pause given up if it is a step or resume |
| HostSession.DebuggerSession.ContinueCommand | src/debugger/sessions.ts:309-334 | an error rolls the pause back, ends the session, or leaves it, by its code |
| HostSession.DebuggerSession.TakeTask | src/debugger/sessions.ts:82 | the serial queue runs one task at a time in order |
| DebuggerSessions.AtMostFourOnePerDevice | src/debugger/sessions.ts:151-158 | over all interleavings of all sessions at most four are not complete, one per device |
| DebuggerSessions.StepKeepsInv | src/debugger/sessions.ts:151-158 | admission, steps, pruning and shutdown keep that bound and every session's invariant |
| DebuggerSessions.SessionMap.Admit | src/debugger/sessions.ts:151-158 | admits exactly when open, fewer than four sessions own resources and none of them the device; a refused attach leaves nothing |
| EventFeed.PushRetains | src/debugger/sessions.ts:115-117 | the retained events are a contiguous run of at most 256 that ends at the sequence number |
| EventFeed.OverflowExactly | src/debugger/sessions.ts:264-280 | a poll flags an overflow if and only if an event past the cursor is no longer retained |
| EventFeed.PageFollowsCursor | src/debugger/sessions.ts:278-279 | without an overflow the page is the next at most 100 events in order, and the cursor moves past exactly those |
| EventFeed.ChainOfPollsIsLossless | src/debugger/sessions.ts:264-280 | whatever is pushed or cleared meanwhile, a chain of polls without overflow delivered every event once, in order, without gaps |
| DebuggerProtocol.NoMissedPause | src/debugger/sessions.ts:283-334 | in every run of host, worker and pipes, error replies sent after the lock included: while the worker is suspended in an epoch, with no stop in flight, no step or resume under way and no teardown, the host is paused in that epoch |
| DebuggerProtocol.StepKeepsInv | src/debugger/java/DebuggerWorker.java:49-72 | the inductive form: a suspended epoch is known to the host, in flight to it, or being left |
| DebuggerProtocol.RollbackKeepsNewerStop | src/debugger/sessions.ts:314-317 | a stop that arrives while a step or resume is refused survives the rollback, with its clock |
| DebuggerProtocol.DuplicateStopCrossesResume | src/debugger/java/DebuggerWorker.java:65-67 | a concrete run that ends with the host paused in an epoch the worker left |
| PauseAgreement.PauseIsTheWorkersExactly | src/debugger/sessions.ts:283-334 | for every run: each accepted step or resume of a live session finds no stop of its epoch in the pipe or back at the host, if and only if at no point delivering what is in the pipe pauses the host in an epoch the worker left; and in such runs the host is paused only in the worker's own epoch |
| PauseAgreement.PausedExactlyWhenSuspended | src/debugger/sessions.ts:283-334 | in such runs, with no stop in flight and no step or resume under way, the host is paused if and only if the worker holds the VM suspended |
| PauseAgreement.UnguardedGoesAstray | src/debugger/java/DebuggerWorker.java:126-133 | from every state the invariant allows, an accepted step or resume that leaves such a stop behind leads, by deliveries alone, to a pause in an epoch the worker left |
| PauseAgreement.StepKeepsSound | src/debugger/java/DebuggerWorker.java:139-149 | every other step keeps stops in flight, the host's stop and a pause it may still take back in agreement with the worker's epoch; replies come in the order of requests |
| Json.RoundTrip | src/debugger/java/DebuggerWorker.java:158-165 | for every value of nulls, booleans, longs, UTF-16 strings, lists and maps with distinct keys, printed by the worker or by the host: parsing what was written gives the value back |
| Json.ReadsBack | src/debugger/java/DebuggerWorker.java:162-164 | the same with any text behind it: a written value is read up to exactly its end |
| Json.WrittenPlain | src/debugger/java/DebuggerWorker.java:164 | written text has no control character, so no newline, and no surrogate on its own (from the worker none at all) |
| Json.HexRoundTrip | src/debugger/java/DebuggerWorker.java:163-164 | four hexadecimal digits of an escape stand for the unit they were made from |
| Utf8.ChunksDecode | src/debugger/worker.ts:74-77 | however the bytes of a well-formed text are cut, the incremental decoder yields the text, cut between characters, and no chunk grows by more than the three bytes it may have kept back |
| Utf8.DecodableExactly | src/debugger/worker.ts:74-77 | the chunks the decoder can make of the bytes of a text are exactly the ways to cut the text between its characters |
| Utf8.DecodesUpTo | src/debugger/worker.ts:74-77 | wherever the bytes are cut, the decoder has the whole characters before the cut and keeps the bytes of the one that is cut |
| Json.Reader.Value | src/debugger/java/DebuggerWorker.java:161 | the cursor parser returns what the grammar function reads, and refuses exactly when it refuses or text is left over |
| Json.Reader.Read | src/debugger/java/DebuggerWorker.java:162 | one value is read and the cursor stops at its end, as specified |
| Json.Reader.String | src/debugger/java/DebuggerWorker.java:163 | the escape loop builds the specified string |
| Json.Reader.Members | src/debugger/java/DebuggerWorker.java:162 | the object loop builds the specified map; a repeated key keeps its place with the newer value |
| Json.Encode | src/debugger/java/DebuggerWorker.java:164 | the printer's loops produce the text that the round trip is about |
| Json.EncodeString | src/debugger/java/DebuggerWorker.java:164 | the builder loop escapes each unit as specified |
| Framing.ChunkingIrrelevant | src/debugger/worker.ts:76-96 | if no acceptable line follows a refused one, every cutting that does not make the buffer overflow yields the accepted lines of the whole |
| Framing.ChunkingMattersExactly | src/debugger/worker.ts:76-95 | the messages handled are the same for all cuttings between characters without overflow if and only if no acceptable line follows a refused one from which on the rest of the stream is within the buffer's limit |
| Framing.OneByOneHandlesAll | src/debugger/worker.ts:76-96 | fed character by character, a stream whose lines are within the buffer's limit does not overflow and has every acceptable line handled, whatever the refused ones |
| Framing.ShortLateExactly | src/debugger/worker.ts:76-95 | in a stream within the buffer's limit, that is when an acceptable line follows a refused one at all |
| Framing.NoOverflowFits | src/debugger/worker.ts:77-78 | a stream with a line beyond the buffer's limit overflows however it is cut |
| Framing.BoundedChunksFit | src/debugger/worker.ts:77-83 | acceptable lines in chunks of at most a line's limit never make the buffer overflow |
| Framing.OverflowIsForEver | src/debugger/worker.ts:77-78 | once the buffer has overflowed nothing is handled any more |
| Framing.DrainConsumes | src/debugger/worker.ts:80-95 | one pass consumes whole lines up to and including the first refused one and keeps the rest |
| WorkerTransport.CallsSettleExactlyOnce | src/debugger/worker.ts:98-125 | in every run each issued call is pending or settled once, never both; once dead nothing is pending, and the failure was emitted exactly once |
| WorkerTransport.SettledByItsCause | src/debugger/worker.ts:76-125 | in every run a settlement is there if and only if a step caused it while the call was pending: the first line of the buffer that was refused or carried its own reply, in this manner; an overflow; its own timer; its own abort; or the failure of the transport, its own write included |
| WorkerTransport.FailureIsDeath | src/debugger/worker.ts:98-109 | a step that settles a call by failure is the one in which the transport goes from live to dead |
| WorkerTransport.DrainedIsSplitter | src/debugger/worker.ts:80-95 | a pass of the transport leads to what handling the lines the splitter consumes, one after the other, leads to |
| WorkerTransport.StreamShowsExactly | src/debugger/worker.ts:76-109 | after every run that leaves the transport live: all cuttings, between characters, of what comes next that do not make the buffer overflow lead to the same emissions, settlements and pending calls, if and only if no event follows a refused line from which on the rest is within the buffer's limit |
| WorkerTransport.CuttingShowsExactly | src/debugger/worker.ts:76-109 | the same from any live transport with less than a line in its buffer |
| WorkerTransport.OverflowCutsOff | src/debugger/worker.ts:77-78 | any chunks at all: those before the first overflow are handled, that one is a failure by the message limit, and nothing shows after it |
| WorkerTransport.DebuggerProcess.TakeChunk | src/debugger/worker.ts:76-96 | the splitting loop reaches the specified transport state |
| WorkerTransport.DebuggerProcess.Break | src/debugger/worker.ts:98-109 | failing rejects every pending call once, empties the table and emits once; a second failure does nothing |
| WorkerTransport.DebuggerProcess.Call | src/debugger/worker.ts:110-125 | a call is refused or registered under a new number |
| WorkerTransport.DebuggerProcess.Receive | src/debugger/worker.ts:84-93 | an event is emitted; a reply settles its own call if it is pending |
| BridgeChannel.TextsSurviveChunking | src/debugger/worker.ts:74-84 | what the worker prints, as UTF-8 bytes cut into pieces smaller than a line may be: the host's buffer never overflows, and its parser is given exactly the printed texts, in order |
| BridgeChannel.CallsArrive | src/debugger/java/DebuggerWorker.java:139-142 | what the host prints, however its bytes are cut: the worker's loop, which counts units where the host's limit counts bytes, does not give up, and its reader yields the values sent, in order |
| WorkerInput.ReadsExactly | src/debugger/java/DebuggerWorker.java:138-148 | the input loop gives up if and only if a line has more units than the limit, and otherwise has read exactly the lines |
| WorkerInput.ReadInput | src/debugger/java/DebuggerWorker.java:140-141 | the loop over the units reaches the specified lines |
| BridgeChannel.StreamLines | src/debugger/java/DebuggerWorker.java:25 | the lines of the stream are exactly the printed texts, and UTF-8 loses nothing of it |
| TraceRouter.AtMostFourTogether | src/observe/system-trace-router.ts:23-45 | in every interleaving the sessions not cleaned up number at most four over both backends, and no two share a platform and device |
| TraceRouter.StepKeepsInv | src/observe/system-trace-router.ts:16-45 | every session that holds resources has an active route or a start under way, and both together stay within four |
| TraceRouter.TrackedActive | src/observe/system-trace-router.ts:16-22 | tracking a result sets its route and forgets no active one |
| TraceRouter.RouterBoundSuffices | src/observe/system-trace.ts:59-60 | a start the router admitted never meets a backend's own limit of four |
| TraceRouter.SystemTraceRouter.Track | src/observe/system-trace-router.ts:16-22 | the loop drops expired terminal routes and all but the last hundred |
| TraceRouter.SystemTraceRouter.Reserve | src/observe/system-trace-router.ts:30-33 | reserves a pending key exactly when the admission check passes |
| AndroidTrace.CompleteIsFinal | src/observe/system-trace.ts:102-137 | in every run a complete session has no device process and no device file, a local directory exactly with an artifact, and never changes again |
| AndroidTrace.CancelCompletesExactly | src/observe/system-trace.ts:158-183 | from every session at rest one cancel with working calls completes exactly when a found process is the owned one |
| AndroidTrace.ForeignProcessReached | src/observe/system-trace.ts:107-131 | a run to a session at rest, its cleanup failed, with another process in the place of its own |
| AndroidTrace.StepKeepsInv | src/observe/system-trace.ts:72-190 | every awaited outcome, failures included, keeps what is held and where it is looked for |
| AndroidTrace.SystemTraceSession.ContinueFind | src/observe/system-trace.ts:107-131 | each process lookup of the halt goes on, finishes the halt or fails it |
| AndroidTrace.SystemTraceSession.ContinueArtifact | src/observe/system-trace.ts:138-157 | each step of fetching the artifact, with the directory dropped after a failure |
| AndroidTrace.SystemTraceSession.ContinueRemoveRemote | src/observe/system-trace.ts:132-137 | the device file goes first, then a directory without artifact, then the session is complete |
| AndroidTrace.SystemTraceSession.Prepare | src/observe/system-trace.ts:167-172 | a control operation drops a cached result and remembers a failed start |
| IosTrace.CompleteIsFinal | src/observe/ios-trace/sessions.ts:129-172 | in every run a complete session has no recorder running and its directory is gone unless it keeps an artifact, and never changes again |
| IosTrace.CancelCompletes | src/observe/ios-trace/sessions.ts:118-156 | from every session at rest one cancel with working calls completes it, recorder exited and files gone |
| IosTrace.StopKeepsArtifact | src/observe/ios-trace/sessions.ts:129-172 | a stop with working calls completes a recording with its artifact kept |
| IosTrace.CancelLeavesDanglingArtifact | src/observe/ios-trace/sessions.ts:165-172 | a concrete run that ends complete with an artifact reported and its directory removed |
| IosTrace.CancelLeavesDanglingExactly | src/observe/ios-trace/sessions.ts:129-172 | from every session at rest a cancel leaves an artifact reported and its directory gone if and only if an artifact was reported before: when all calls work, and in every run to a complete session whatever fails on the way |
| IosTrace.StepKeepsInv | src/observe/ios-trace/sessions.ts:57-172 | every awaited outcome keeps the invariant, and no step leaves a complete session |
| IosTrace.IosTraceSession.BeginFinalise | src/observe/ios-trace/sessions.ts:129-137 | finalising stops the recorder unless that is done, and goes on to the files |
| IosTrace.IosTraceSession.ContinueRecorder | src/observe/ios-trace/sessions.ts:157-164 | the recorder's end is accepted, or fails by exit code and limit unless discarding |
| IosTrace.IosTraceSession.FailFinalise | src/observe/ios-trace/sessions.ts:143-156 | a failed finalisation still discards the files when that is asked for and the recorder is gone |
| IosTrace.IosTraceSession.ContinuePoll | src/observe/ios-trace/sessions.ts:100-117 | three failed probes in a row or a definitive one end the session; the deadline finalises it |
| SnapshotStore.SameRevisionExactly | src/observe/snapshot-metadata.ts:158-181 | two observations of a device, the later signed, have the same revision if and only if the first had that signature and everything between was valid, alike, within ten minutes and not cleared |
| SnapshotStore.BaselineHasSource | src/observe/snapshot-metadata.ts:246-271 | every retained revision was given to a valid capture of its device |
| SnapshotStore.BaselineWasMinted | src/observe/snapshot-metadata.ts:158-189 | every retained revision was given as a new number to an observation of its device |
| SnapshotStore.MintedOnce | src/observe/snapshot-metadata.ts:168-170 | no revision is minted twice |
| SnapshotStore.NextSound | src/observe/snapshot-metadata.ts:246-271 | history stays within eight revisions and ten minutes in ascending order, and a valid capture is retained under its own revision with its own records |
| SnapshotStore.SameRevisionNoDelta | src/observe/snapshot-metadata.ts:168-188 | a valid tree that keeps the revision has nothing added, removed or changed |
| SnapshotStore.Snapshots.Derive | src/observe/snapshot-metadata.ts:158-189 | an observation updates the store and reports as specified |
| SnapshotStore.Snapshots.RetainHistory | src/observe/snapshot-metadata.ts:246-271 | the expiry and eviction loops keep the newest eight unexpired revisions |
| SnapshotStore.Snapshots.GetStateDelta | src/observe/snapshot-metadata.ts:191-224 | a delta exists exactly for two retained, unexpired revisions, and compares their records |
| SnapshotDelta.DeltaRebuilds | src/observe/snapshot-metadata.ts:198-223 | a delta that is not truncated, applied to the base, gives the current capture up to the signed fields |
| SnapshotDelta.OmittedCoversTheRest | src/observe/snapshot-metadata.ts:211-223 | every delta reports exactly the first 200 changes, and the omitted number covers all others and the unrecorded elements |
| SnapshotDelta.CountsBalance | src/observe/snapshot-metadata.ts:92-119 | current = previous - removed + added |
| SnapshotDelta.SameSigs | src/observe/snapshot-metadata.ts:44-90 | trees with equal signatures have equal records up to unsigned fields |
| SnapshotDelta.SameSignaturesSameSummary | src/observe/snapshot-metadata.ts:92-119 | records with the same signatures give a summary with nothing added, removed or mutated |
| SnapshotDelta.RecordedExactly | src/observe/snapshot-metadata.ts:76-90 | an identity is recorded if and only if some element has it |
| SnapshotDelta.LastOfIdentity | src/observe/snapshot-metadata.ts:81-87 | of several elements with one identity the last is recorded |
| SnapshotDelta.Compare | src/observe/snapshot-metadata.ts:198-223 | the loops produce the specified delta |
| SnapshotDelta.Summarise | src/observe/snapshot-metadata.ts:95-118 | the counters count missing, new and differing identities |
| SnapshotDelta.BuildRecords | src/observe/snapshot-metadata.ts:76-90 | the loop records the first five hundred elements |
| ConditionalInput.MatchedMeansUnchanged | src/interact/conditional-action.ts:46-74 | no ABA: input let through for a revision means that from the one observation it was minted for, up to the gate's own capture, every observation of the device was valid with the same signature, with no clear or expiry |
| ConditionalInput.SteadySince | src/interact/conditional-action.ts:46-74 | the same from every observation, not only the first, that was given the revision |
| ConditionalInput.ConditionalAction.BeforeInputDispatch | src/interact/conditional-action.ts:46-74 | the checks in order give the specified status and reason, and input goes out exactly on a match |
| Evidence.FreshExactly | src/observe/evidence.ts:269-308 | after every interleaving an observation is fresh if and only if it is a known completed capture with a sound clock, not reused, not before its action, and no tracked dispatch on its device ran at any moment from its start to the report |
| Evidence.FreshIsUndisturbed | src/observe/evidence.ts:289-308 | fresh means every dispatch on the device, of whatever action and on whatever order object, had ended before the capture began |
| Evidence.StepKeepsInv | src/observe/evidence.ts:103-163 | counters count dispatches, a running dispatch keeps its order current, and captures know which dispatches came before |
| Evidence.WithOrderSound | src/observe/evidence.ts:51-66 | making an order object evicts idle ones only, never the new one |
| Evidence.SelectIdle | src/observe/evidence.ts:58-63 | the eviction loop selects the oldest idle orders until the bound holds, and keeps all others in order |
| Evidence.Tracker.BeginDispatch | src/observe/evidence.ts:106-112 | a dispatch takes the next number of its device's order and counts as active |
| Evidence.Tracker.EndCapture | src/observe/evidence.ts:147-162 | the end of a capture fixes status, source time, reuse, end sequence and overlap |
| UiPreorder.FlattenedIsPreorder | src/utils/android/ui-tree.ts:138-197 | the flat list is the useful nodes in preorder; each element copies its node, names its nearest useful ancestor, sits one level below it, and lists exactly its own useful children in order |
| UiPreorder.ChildrenPointBack | src/observe/ios/ui-elements.ts:219-243 | a listed child names the lister as its parent and comes later |
| UiPreorder.PathsExactly | src/utils/android/ui-tree.ts:143-172 | the reference order holds exactly the useful nodes |
| UiPreorder.PathsFromBlocked | src/utils/android/ui-tree.ts:175-190 | the entries under an entry are a contiguous block as long as its node has useful nodes |
| UiTree.Flattener.Traverse | src/observe/ios/ui-elements.ts:191-246 | the recursive traversal appends the specified elements and returns the index of its own or -1 |
| UiTree.Flattener.TraverseAll | src/utils/android/ui-tree.ts:178-190 | the child loop appends all subtrees and collects the indices of direct children |
| UiSubtree.CollectSubtree | src/interact/waits/ui-change-helpers.ts:7-31 | on every array, cycles and holes included, the search ends with exactly the reachable indices, ascending and without repeats, or nothing for a bad root |
| UiSubtree.ChildIndices | src/interact/waits/ui-change-helpers.ts:144-162 | exactly the links of an element, each once |
| UiSubtree.SubtreeIsBlock | src/interact/waits/ui-change-helpers.ts:7-31 | in a flattened forest reachable from an element means inside its contiguous block |
| UiSubtree.CollectedIsBlock | src/interact/waits/ui-change-helpers.ts:7-31 | so the collected subtree is that block |
| UiSubtree.FirstNamed | src/interact/targeting/element-helpers.ts:64-70 | the first element that goes by a name, or none |
| UiSubtree.SortKeeps | src/interact/waits/ui-change-helpers.ts:30 | sorting keeps the members and makes distinct indices strictly ascending |
| Readiness.ReadyExactly | src/observe/readiness.ts:34-102 | ready if and only if the log ends in a run of alike samples over the stability time, none loading after the first, unbroken by a bad sample or blocked probe, and the last probe allows input |
| Readiness.SettledExactly | src/observe/readiness.ts:75-101 | the same for the settled state alone; samples skipped while the debugger pauses do not break a run |
| Readiness.BlockerIsLastVerdict | src/observe/readiness.ts:17-32 | the wake or lock blocker shown is the last definite verdict, however many unknown probes follow |
| Readiness.BlockedExactly | src/observe/device-readiness.ts:32-39 | input is blocked exactly by such a verdict or by a pause seen in the last probe |
| Readiness.ReadinessTracker.Observe | src/observe/readiness.ts:75-101 | one sample updates the tracker as specified |
| Readiness.ReadinessTracker.ObserveDevice | src/observe/readiness.ts:37-46 | one probe updates the verdicts, and a blocked one resets the window |
| ResolvedElements.MostRecentExactly | src/interact/targeting/resolved-elements.ts:11-19 | for non-empty ids the store holds an id exactly when fewer than the maximum of other ids are newer, with its latest context, and never more than the maximum |
| ResolvedElements.AlwaysFaithful | src/interact/targeting/resolved-elements.ts:11-19 | whatever the ids: held ids are in order of last use with latest contexts, and every id gone has enough newer ones |
| ResolvedElements.RememberBoundedExactly | src/interact/targeting/resolved-elements.ts:14-18 | one call keeps the maximum if and only if the empty id is not among the entries that must go |
| ResolvedElements.EmptyIdBlocksEviction | src/interact/targeting/resolved-elements.ts:16 | a concrete history that exceeds the maximum |
| ResolvedElements.ElementStore.Remember | src/interact/targeting/resolved-elements.ts:11-19 | the delete, set and eviction loop as specified |
| InteractionDiagnostics.LookupSeesLongestSuffix | src/server/handlers/interaction-diagnostics.ts:23-42 | after any history a lookup sees the longest suffix of the accepted results that is unexpired and within 100 entries and 16 MiB, and the byte counter is its sum |
| InteractionDiagnostics.StepKeepsInv | src/server/handlers/interaction-diagnostics.ts:18-35 | retaining, looking up and expiring keep a suffix within the limits whose predecessor had to go |
| InteractionDiagnostics.Diagnostics.Retain | src/server/handlers/interaction-diagnostics.ts:26-35 | the eviction loop, whose guard does not ask whether the store is empty, never looks for the oldest entry of an empty one, makes room, and a result is available unless too large |
| InteractionDiagnostics.Diagnostics.Prune | src/server/handlers/interaction-diagnostics.ts:23-25 | the loop removes exactly the expired entries and their bytes |
| PerfettoConfig.ConfigRoundTrip | src/observe/system-trace-android.ts:33-40 | a wire-format reader finds in the encoded configuration exactly the preset, the duration and the categories |
| PerfettoConfig.ConfigInjective | src/observe/system-trace-android.ts:33-40 | distinct requests give distinct bytes |
| PerfettoConfig.FieldsRoundTrip | src/observe/system-trace-android.ts:28-32 | every list of fields is read back from its bytes |
| PerfettoConfig.VarintRoundTrip | src/observe/system-trace-android.ts:23-27 | varints are self-delimiting for all naturals |
| PerfettoConfig.VarintMinimal | src/observe/system-trace-android.ts:23-27 | no encoding of a number is shorter than its varint |
| PerfettoConfig.EncodeVarint | src/observe/system-trace-android.ts:23-27 | the loop emits that varint |
| Adjustment.Adjusting.AdjustControl | src/interact/adjustment/adjustment.ts:36-49 | every run ends with at most the limit of actions sent, all inside a long enough track; success carries a read value within tolerance of the target, and of the requested value itself but for half a step and half a decimal place; nothing is sent after the first verified hit, and a verified hit always means success |
| Adjustment.Adjusting.Attempt | src/interact/adjustment/adjustment.ts:15-35 | one attempt keeps the count and hands on no control found within tolerance |
| Adjustment.Adjusting.PrepareIteration | src/interact/adjustment/adjustment-resolution.ts:76-104 | a control already within tolerance ends the adjustment before anything is sent; invalid ones fail |
| Adjustment.Adjusting.VerifyControl | src/interact/adjustment/adjustment-verification.ts:30-60 | within tolerance exactly when a value was read and is close enough |
| Adjustment.Adjusting.IncrementalAdjustment | src/interact/adjustment/adjustment-semantic.ts:30-49 | the nudging loop ends, counts its actions and stops at the first hit |
| Adjustment.Adjusting.DirectAdjustment | src/interact/adjustment/adjustment-semantic.ts:16-29 | at most one action, success only on a verified hit |
| Adjustment.Adjusting.CoordinateAdjustment | src/interact/adjustment/adjustment-gestures.ts:11-30 | the probe loop stays within the limit and inside the track |
| Adjustment.Adjusting.GestureAdjustment | src/interact/adjustment/adjustment-gestures.ts:31-48 | one swipe inside the track, success only on a verified hit |
| ControlValues.QuantisedNear | src/interact/adjustment/control-values.ts:74-80 | a requested value in the control's range is moved to its grid by at most half a step and half of the last decimal place |
| ControlGeometry.InsideExactly | src/interact/adjustment/control-geometry.ts:4-23 | every ratio gives a point at least eight pixels inside both ends if and only if the track has at least seventeen pixels |
| ControlGeometry.PointFollowsRatio | src/interact/adjustment/control-geometry.ts:4-23 | a larger share of the range is never nearer the low end, and leaves the cross coordinate alone |
| ControlGeometry.SafeRatioOffEnds | src/interact/adjustment/control-geometry.ts:25-59 | for every target, even outside the range, the ratio aimed at stays off both ends, so the clamp never acts on it |
| ControlGeometry.ProbePoints | src/interact/adjustment/control-geometry.ts:61-112 | the target first, no point twice, exactly the candidate points, all inside a long enough track |

## Left out

- Json.RoundTrip: does not cover doubles, because the bridge sends none; `Json.Write` prints the text a double was read from, not Java's rendering of its value.
- Json.Reader.Value: digits in numbers and `\u` escapes are ASCII, though Java also takes other Unicode digits; the depth of recursion is not bounded by a stack.
- Utf8.ChunksDecode: the decoder's replacement of invalid sequences is left out; both printers produce well-formed text.
- BridgeChannel.TextsSurviveChunking: what the host's `JSON.parse` and its check of the shape make of a text is a parameter, so the lemma speaks of texts, not of values; the worker's output stream is taken to encode UTF-8 with a bare newline.
- BridgeChannel.CallsArrive: the keys of a message come in the order in which the host lists them.
- JdiWorker.DebuggerWorker.Run: source locations and the text of locals are left out; the worker is one object in the source, and its breakpoints and requests are a second one here, joined to this one in `WorkerRequests.Apply`.
- WorkerRequests.RequestsMatch: lines, reasons and the messages about breakpoints are left out; what a search finds is a parameter, and a request that is made but not enabled carries its breakpoint's identifier.
- JdiWorker.HandleAcceptedOnlyInItsEpoch: states one direction; a handle of the current epoch can still be refused by the frame limit or a native error.
- HostSession.SessionLeaksNothing: reasons, diagnostics, expiry times and the text of results are left out; the timer is an action that may fire at any time once it runs.
- DebuggerSessions.SessionMap.Drop: which complete sessions are pruned, by age and number, is left to the caller; it may be any set of complete ones.
- DebuggerProtocol.NoMissedPause: the LLDB worker is left out; it follows the same epochs.
- EventFeed.ChainOfPollsIsLossless: the wait and the heartbeat of a poll are left out.
- AndroidTrace.CompleteIsFinal: a start command that failed is taken to have had its effect on the device by the time it returned; correlation links, coverage and pruning of finished sessions are left out.
- IosTrace.CompleteIsFinal: warnings, recovery texts, correlation links and the contents of the artifact are left out; a directory that could not be removed counts as present.
- TraceRouter.AtMostFourTogether: a backend that has made a session is taken to return its result; pruning of complete sessions in the backends is not visible to the router.
- SnapshotStore.SameRevisionExactly: a tree element is never null, because the signature of a tree with a null element cannot be computed.
- SnapshotStore.SameRevisionNoDelta: does not cover observations with a signature override, which can keep a revision across different trees.
- SnapshotDelta.DeltaRebuilds: the reported entries keep the identity that the source leaves out of added and changed elements.
- Evidence.FreshExactly: omitted components, log windows, ages and action history are left out; the action a report names is a parameter.
- UiPreorder.FlattenedIsPreorder: whether a node is useful, and what else is copied from it, is a parameter of the node.
- UiSubtree.CollectSubtree: names are given lower-cased and trimmed; links that are not integers count as out of range.
- Readiness.ReadyExactly: parsing of device output, evidence lists, limitation codes and capture metadata are left out; an unsupported verdict counts as unknown.
- InteractionDiagnostics.LookupSeesLongestSuffix: timers are taken to fire in the order they were set and not before their delay.
- ControlValues.QuantisedNear: numbers are exact reals; that the last decimal place comes from the step's printed form, and at most twelve, is left out.
- ControlGeometry.InsideExactly: coordinates are integers and ratios exact reals; rounding of floating-point products is left out.
- Adjustment.Adjusting.AdjustControl: the range, step and decimal place of an iteration are whatever the device shows; traces, fingerprints and the wait for the control are left out, and a remembered control keeps the value last observed.
- Build, install, launch, log collection, screenshots, network capture, selectors, candidate scoring, response shaping and the journey runner are not modelled.
- The change summary of `ui-change-helpers.ts` is not modelled; its total is the number of elements, so its counts need not balance when identities repeat.
- LLDB, adb, xcrun, the JDI and the file system appear only as outcomes.
