# Verified protocols of the garden bridge

A Dafny model of the parts of this repository where several handlers, processes or runs act on shared
state, with proofs about every run rather than about single calls.

- **Fresh bootstrap** (`OmpPayload`, `OmpBootstrap*`): the two-stage launch of a sibling session.
  `OmpBootstrap` is the protocol as a machine over arbitrary vendor events; a send is split into its
  begin and its return, so any handler may run inside it, and every vendor call may fail.
  `OmpBootstrapEvents` says what one event does, in its fields;
  `OmpBootstrapUnit` is the code's own form, objects and module variables, proved step by step equal
  to the machine. The unit's payload text, called task in the source, is the work item below.
- **Receiver** (`OmpMailbox`, `OmpDoorbell`, `OmpReceiver*`): the watch, the marker, the bounded retry,
  the exit listener and the ring loop, for several processes over shared stores. A handler is one event
  up to its return or to the notice of a ring; the notice's return is an event of its own, so any handler
  of any process may run inside it. `OmpReceiverSafety` is about marker, watch and listener,
  `OmpReceiverServes` about what an edge, a tick, a signal and a return each come to,
  `OmpReceiverRings` about rings, `OmpReceiverRetry` about the timers, `OmpReceiverRuns` holds two failing
  runs, `OmpReceiverOrder` composes the receiver with birth on the same edge; `OmpReceiverUnit` is the
  class, in which a notice is a call that runs handlers of the same object.
- **Bridge installer** (`Agy*`): permission rules and the server key, with their provenance records,
  runs cut between two writes (`AgyPermissionsCrash`), operator edits, what record members of either
  version decide (`AgyPermissionsRecords`), and the doctor against Deny > Ask > Allow.
- **Session switch** (`HookSwitch`, and its store calls interleaved in `HookInterleaving`), **control
  socket framing** (`ControlFraming`) and **model lock** (`ModelLock`).

Classes (`OmpBootstrapUnit`, `OmpReceiverUnit`, `AgyInstaller`, `HookSwitch.Hook`,
`ControlFraming.Connection`, `ModelLock.Lock`) update their fields the way the source does; each of
their methods is tied to a specification function, and the properties are proved of those functions.
Files, clocks, pids, timers' handles and everything a vendor call answers are parameters of an event.

## Where the code falls short of its promise

- Re-install is described as absorbed (`scripts/agy-bridge-config.py:166-175`). It is, exactly under
  `AgyPermissionsInverse.WillAbsorb`; `StrandedRule`, `RestoredAgainstWish`, `EmptyListDropped` and
  `MissingEntryKeepsContainer` are the four ways out. The last is a record without a container entry:
  install takes the missing entry for "there before", uninstall for "made by us". Over settings whose
  list is not present the statement is not made.
- The preimage is meant to come back exactly. A JSON null in a container place comes back as absence
  (`AgyPermissionsInverse.RoundTripExactly`), a missing server table comes back empty, and a null
  under our key as absence (`AgyServer.RoundTripExactly`).
- The settings are written before the record. An install cut in between never endangers an operator's
  rule (`OperatorRuleSurvives`), but what a first one granted is never taken back (`CutInstallStays`), nor
  is a rule that a cut re-install grants and the record does not know (`CutReinstallExactly`), and a server
  entry of the operator's is overwritten for good (`AgyServer.CutInstallOverwrites`).
- The model lock releases its flag only after the awaited revert resolves, so a switch between the
  revert's landing and its resolution is not refused (`ModelLock.SwitchEscapesExactly`, `WindowRace`).
  Restores are not refused either, and a revert may fail; `RunsKeepExactly` says that nothing else gets a
  session past its lock.
- A retry timer whose clearing throws is dropped and lives on. It ticks without bound
  (`OmpReceiverRetry.TicksBoundedExactly`), and it can arm a process that is armed already, which
  leaves the old garden's marker and watch behind in the name of a living process (`OrphanSplits`).
- The tick that arms clears the retry that is stored when its startup ring is over. An edge inside that
  ring's notice may have stored a newer session's, which is then never served
  (`OmpReceiverRuns.TickDropsNewRetry`; exactly when: `OmpReceiverRetry.RetrySurvivesExactly`).
- A throwing removal of the exit listener is caught and leaves it registered
  (`OmpReceiverSafety.ListenerExactly`).
- A ring requested during a notice that throws is forgotten (`OmpDoorbell.RequestsAreServed`). A stamp does
  not mean that the bell rang when the recount fails, nor when the notice itself throws: everything is
  stamped then, and later rings are silent. `OmpDoorbell.RangForNobodyExactly` says that there is no third
  way.
- A ring requested inside a notice looks once more at the mailbox the running ring started with. If the
  receiver has been armed anew for another garden by then, that garden's mail is not announced, and a
  vanished old signal takes the new doorbell down (`OmpReceiverRings.RequestServesExactly`,
  `RearmedMailWaits`, `OldSignalUnarms`).
- A stamped file that is still there when its fresh name is used again is replaced by the rename, and
  the message in it is lost (`OmpMailbox.PassConservesExactly`).
- The hook moves the sender marker on a prompt event without retiring the old receiver marker; only
  the assumption that such an event names the established session keeps the stores in step
  (`HookSwitch.StepBackedExactly`). Removing a marker reads and then unlinks; a marker another process
  writes in between, and nobody removes again before the unlink, is lost (`HookInterleaving.TakesExactly`,
  and concretely `UnlinkRace`).

## Model

| member | source | states |
|---|---|---|
| OmpBootstrapSafety.AtMostOnce | pi-extensions/meta-bridge-omp.ts:787-948 | over every run, sends re-entering handlers and throwing calls included, one bootstrap at most exists; the callback prompt and then the work item are attempted at most once each, both with the launch's payload |
| OmpBootstrapSafety.TaskSentExactly | pi-extensions/meta-bridge-omp.ts:852-937 | the work item is sent if and only if the run contains the whole chain inside one epoch: arming, a poll that finds the tool, the first exactly matching call, a result with that id and `isError === false`, a turn end, all fenced to the bound tui session |
| OmpBootstrapSafety.LaterEdgeEndsSending | pi-extensions/meta-bridge-omp.ts:1056-1064 | once the launch is spent, any later tui birth edge ends all sending for the rest of the run, whether or not its envelope or its upsert fails and whatever is in flight |
| OmpBootstrapSafety.ForeignEventsAreInvisible | pi-extensions/meta-bridge-omp.ts:999-1014 | erasing every event the mode and session fences refuse leaves the same sends in the same order and the same final state |
| OmpBootstrapSafety.ConsumedExactly | pi-extensions/meta-bridge-omp.ts:1074-1121 | the launch latch is spent exactly when some tui edge with a healthy envelope and upsert has decoded a payload, armed or not |
| OmpBootstrapSafety.HeldTimerWaits | pi-extensions/meta-bridge-omp.ts:803-882 | in every run a timer is held exactly while the bootstrap waits, and a bootstrap that lost its lane is final |
| OmpBootstrapSafety.Progress | pi-extensions/meta-bridge-omp.ts:787-948 | a run that follows the chain is, after each of its events, in the one state the protocol prescribes there |
| OmpBootstrapSafety.DeadStep | pi-extensions/meta-bridge-omp.ts:1056-1064 | "spent and none active, all handles final" is absorbing: no event sends from it |
| OmpBootstrapSafety.EdgeKills | pi-extensions/meta-bridge-omp.ts:1129-1185 | a tui birth edge on a spent launch leads into that absorbing state and sends nothing itself |
| OmpBootstrapSafety.BoundStep | pi-extensions/meta-bridge-omp.ts:1011-1014 | a fenced-out event changes nothing, and the active bootstrap stays bound to the launch's session |
| OmpBootstrapRuns.RunReached | pi-extensions/meta-bridge-omp.ts:787-948 | every reachable state is explained by the events before it: which edge armed, which poll prompted, which call and result moved it on |
| OmpBootstrapPolling.PollingTerminates | pi-extensions/meta-bridge-omp.ts:795-882 | with a monotone clock and timers that are not early, a launch polls at most 601 times and never has two timers outstanding, even if clearing throws |
| OmpBootstrapPolling.RunStaysBounded | pi-extensions/meta-bridge-omp.ts:852-882 | the measure behind it: polls made so far and the time left to the deadline stay within the bound on every run |
| OmpPayload.DecodeAcceptsExactlyBuilt | pi-extensions/meta-bridge-omp.ts:231-271 | the decoder accepts a JSON value if and only if it is the wire object of a usable payload; nothing wider |
| OmpPayload.ComposedLaunchDecodes | pi-extensions/lib/mux-fresh-call.ts:445-458 | what the launcher composes for a caller and a minted nonce decodes back whole, its text trimmed |
| OmpBootstrapEvents.OthersAreIgnored | pi-extensions/meta-bridge-omp.ts:999-1014 | a tool or turn event whose mode is not "tui" or whose session id is not the bound one changes nothing at all |
| OmpBootstrapEvents.IdleIgnoresAll | pi-extensions/meta-bridge-omp.ts:1011-1014 | without an active bootstrap no tool or turn event changes anything |
| OmpBootstrapEvents.OwnCallIsRemembered | pi-extensions/meta-bridge-omp.ts:892-899 | under the bound tui session the first callback call with an id is remembered after the prompt, and no call changes anything else |
| OmpBootstrapEvents.OwnResultReleases | pi-extensions/meta-bridge-omp.ts:900-915 | under the bound tui session a result with the remembered id and `isError === false` releases, and no other result changes anything |
| OmpBootstrapEvents.OwnTurnEndSends | pi-extensions/meta-bridge-omp.ts:932-937 | under the bound tui session a turn end sends the work item of a released bootstrap, ends it unsent where nothing can be sent, and otherwise changes nothing |
| OmpBootstrapEvents.PollMeans | pi-extensions/meta-bridge-omp.ts:852-880 | a poll of a waiting bootstrap prompts with target and nonce, waits on strictly before the deadline, or fails |
| OmpBootstrapEvents.FirstEdgeArms | pi-extensions/meta-bridge-omp.ts:1066-1123 | the first tui edge that is born with a usable payload binds a bootstrap with a deadline of 60 seconds to its session and polls at once; without timers it only spends the launch |
| OmpBootstrapEvents.OtherEdgesWait | pi-extensions/meta-bridge-omp.ts:1074-1100 | on an unspent launch every other edge leaves everything as it is |
| OmpBootstrapEvents.LaterEdgeEnds | pi-extensions/meta-bridge-omp.ts:1056-1064 | on a spent launch a tui edge fails what is active unless it has sent its work item, leaves nothing active, and does nothing else |
| OmpBootstrapEvents.OtherModesWait | pi-extensions/meta-bridge-omp.ts:1130-1137 | an edge of any other mode changes nothing at any time |
| OmpBootstrapEvents.ReturnMeans | pi-extensions/meta-bridge-omp.ts:838-850 | the return of a send closes the innermost open one, and a throw fails the bootstrap that made it, nothing else |
| OmpBootstrapEvents.EnvelopeExactly | pi-extensions/meta-bridge-omp.ts:503-530 | an edge has an envelope if and only if the manager can be read and names a session, and the two sources name one directory between them; those are what it carries |
| OmpBootstrapEvents.ReadyExactly | pi-extensions/meta-bridge-omp.ts:740-756 | the callback tool is ready if and only if it is enabled and registered from an mcp source, by its full name |
| OmpBootstrapEvents.MatchesExactly | pi-extensions/meta-bridge-omp.ts:767-773 | a tool event is the callback if and only if it has the full tool name and its arguments already hold exactly this target and nonce |
| OmpPayload.UsableExactly | pi-extensions/meta-bridge-omp.ts:246-271 | a usable payload is: a target of the form day, T, time, hyphen, six hexadecimal digits; a nonce the launcher can mint; a text of at most 16000 code units that is not all white space |
| OmpPayload.GardenIdExactly | pi-extensions/lib/meta-session.ts:252-258 | a garden id is exactly eight digits, T, six digits, a hyphen and six lower-case hexadecimal digits |
| OmpPayload.NonceExactly | pi-extensions/lib/mux-fresh-call.ts:370-376 | the nonces the decoder takes are exactly the ones the launcher mints from twelve bytes |
| OmpPayload.BuildExactly | pi-extensions/lib/mux-fresh-call.ts:296-303 | the wire object has exactly the four members, each with its value |
| OmpPayload.RefusedExactly | pi-extensions/meta-bridge-omp.ts:242-254 | no flag, no text, no JSON and no object are each refused under their own reason, if and only if they are the case |
| OmpPayload.ObjectRefusedExactly | pi-extensions/meta-bridge-omp.ts:255-271 | an object is refused for the first of version, unknown key, target, nonce, empty text, long text that it fails |
| OmpPayload.ComposedExactly | pi-extensions/lib/mux-fresh-call.ts:445-458 | the launcher composes if and only if the caller is named and the trimmed text is neither empty nor too long |
| OmpBootstrapUnit.Bootstrap.Tick | pi-extensions/meta-bridge-omp.ts:852-872 | one readiness observation on the object is one poll of the specification; the phase moves before the send |
| OmpBootstrapUnit.Bootstrap.OnToolCall | pi-extensions/meta-bridge-omp.ts:892-899 | remembers the first exactly matching call id and nothing after it |
| OmpBootstrapUnit.Bootstrap.OnToolResult | pi-extensions/meta-bridge-omp.ts:900-915 | only the remembered id with `isError === false` releases |
| OmpBootstrapUnit.Bootstrap.OnTurnEnd | pi-extensions/meta-bridge-omp.ts:932-937 | latches before it attempts the send |
| OmpBootstrapUnit.Bootstrap.Send | pi-extensions/meta-bridge-omp.ts:838-850 | a missing send surface fails the bootstrap, otherwise the message is attempted |
| OmpBootstrapUnit.Bootstrap.Schedule | pi-extensions/meta-bridge-omp.ts:874-880 | a timer that cannot be set fails the bootstrap |
| OmpBootstrapUnit.Bootstrap.Fail | pi-extensions/meta-bridge-omp.ts:821-826 | drops the timer and fails unless final |
| OmpBootstrapUnit.Bootstrap.Invalidate | pi-extensions/meta-bridge-omp.ts:938-946 | ends a released bootstrap too, never a final one |
| OmpBootstrapUnit.BirthUnit.OnBirthEdge | pi-extensions/meta-bridge-omp.ts:1129-1185 | the whole edge over the module's two variables is one step of the specification: the epoch ends before anything can bail |
| OmpBootstrapUnit.BirthUnit.Start | pi-extensions/meta-bridge-omp.ts:1066-1123 | decode, latch, timer surface and arming in the source's order are one `Start` of the specification |
| OmpBootstrapUnit.BirthUnit.TakeLane | pi-extensions/meta-bridge-omp.ts:1116-1120 | the previous bootstrap is invalidated, the new one bound to the session, the latch spent |
| OmpBootstrapUnit.BirthUnit.EndEpoch | pi-extensions/meta-bridge-omp.ts:1056-1064 | invalidates and drops the active bootstrap of a spent launch |
| OmpBootstrapUnit.BirthUnit.For | pi-extensions/meta-bridge-omp.ts:1011-1014 | answers the active bootstrap exactly when the context passes both fences |
| OmpBootstrapUnit.BirthUnit.OnToolCall | pi-extensions/meta-bridge-omp.ts:1223-1229 | the event reaches the active bootstrap behind the fences and no other |
| OmpBootstrapUnit.BirthUnit.OnToolResult | pi-extensions/meta-bridge-omp.ts:1230-1236 | the event reaches the active bootstrap behind the fences and no other |
| OmpBootstrapUnit.BirthUnit.OnTurnEnd | pi-extensions/meta-bridge-omp.ts:1237-1243 | the event reaches the active bootstrap behind the fences and no other |
| OmpBootstrapUnit.BirthUnit.TimerFires | pi-extensions/meta-bridge-omp.ts:874-880 | any bootstrap's timer, a stale one included, is one step of the specification |
| OmpBootstrapUnit.BirthUnit.SendReturns | pi-extensions/meta-bridge-omp.ts:838-850 | the innermost open send returns to the bootstrap that made it; a throw fails it |
| OmpReceiverSafety.RunsAgreeExactly | pi-extensions/meta-bridge-receive-omp.ts:363-417 | in every run of several receivers over shared stores, with any handlers inside the notices of rings, and whether or not clearing a timer or the calls on the exit listener work, marker and watch agree after every handler if and only if no retry tick ever publishes in a process that is armed: a marker owned by a running process is for the garden it is armed for, and the one open watch is that garden's |
| OmpReceiverSafety.HandlerAgreesExactly | pi-extensions/meta-bridge-receive-omp.ts:290-353 | one handler, inside a notice or not, keeps that agreement if and only if it is no retry tick that publishes while the process is armed |
| OmpReceiverSafety.StepAgreesExactly | pi-extensions/meta-bridge-receive-omp.ts:610-637 | one handler of one process keeps all processes in agreement under the same condition |
| OmpReceiverSafety.ListenerExactly | pi-extensions/meta-bridge-receive-omp.ts:580-599 | a handler keeps "one exit listener is registered exactly while armed" if and only if it neither comes to be armed where registering fails nor gives its doorbell back where removing the listener fails |
| OmpReceiverSafety.AttemptMeans | pi-extensions/meta-bridge-receive-omp.ts:316-412 | an attempt to arm told from outside: which garden's marker it gets to write, under which watch, and when nothing but trailing effects is left of it |
| OmpReceiverSafety.ArmedForTheCurrentSession | pi-extensions/meta-bridge-receive-omp.ts:290-353 | after the receiver's handler of a tui edge, whatever failed in it and inside whatever notice it ran, the process is armed for nothing or for the garden of the very session the vendor reports |
| OmpReceiverSafety.ForeignMarkersStay | pi-extensions/meta-bridge-receive-omp.ts:610-637 | no handler takes another process's marker away; only that of the garden its own session is born as may be replaced |
| OmpReceiverSafety.UnarmKeeps | pi-extensions/meta-bridge-receive-omp.ts:610-637 | unarm removes no marker of another pid at all |
| OmpReceiverSafety.RunsWatchFirst | pi-extensions/meta-bridge-receive-omp.ts:363-417 | over every run, whatever fails, no marker is written without an open watch for its garden (the order of the two calls in `arm` read over runs) |
| OmpReceiverRings.RunsRingPlainly | pi-extensions/meta-bridge-receive-omp.ts:516-564 | in every run, with edges, ticks, signals, watch errors and other processes inside its notices, every ring that is over made exactly the announcements, stamps and end of a plain ring of `OmpDoorbell` over the one mailbox it started with |
| OmpReceiverRings.RequestServesExactly | pi-extensions/meta-bridge-receive-omp.ts:519-538 | a ring requested inside a notice stamps the waiting mail of garden h at the next look, all of whose calls succeed, if and only if h is the garden the running ring started with |
| OmpReceiverRings.RearmedMailWaits | pi-extensions/meta-bridge-receive-omp.ts:519-538 | as long as a ring of one garden runs, whatever handlers of the process run in it, the fresh mail of any other garden, one the receiver has been armed for meanwhile included, stays as it is |
| OmpReceiverRings.OldSignalUnarms | pi-extensions/meta-bridge-receive-omp.ts:526-538 | the requested look takes the new garden's doorbell down if and only if the old garden's signal is gone |
| OmpReceiverRetry.RunsStayCoherent | pi-extensions/meta-bridge-receive-omp.ts:429-500 | while no clear throws no tick ever meets an armed process, so marker and watch agree over every run, with handlers inside startup rings too; at most one retry timer is live in a process, and none while it is armed but the one a tick has still to clear after its startup ring |
| OmpReceiverRetry.TicksAreBounded | pi-extensions/meta-bridge-receive-omp.ts:429-500 | while no clear throws, whatever else fails and whatever edges run inside notices, a process takes at most 40 retry ticks per tui edge, from whatever contexts |
| OmpReceiverRetry.TicksBoundedExactly | pi-extensions/meta-bridge-receive-omp.ts:440-500 | from a state outside of notices: the ticks of the runs without another edge and without another throwing clear are bounded, and then by 40, if and only if no live timer is left over from a clear that threw |
| OmpReceiverRetry.OrphansAreThrownClears | pi-extensions/meta-bridge-receive-omp.ts:490-500 | a handler leaves a live timer without an owner exactly by a clear that throws, one each, and no such timer is ever cleared |
| OmpReceiverRetry.OrphansOverRuns | pi-extensions/meta-bridge-receive-omp.ts:490-500 | over any run of a process that does not exit, the ownerless timers at the end are those at the start and the timers whose clear threw, no other |
| OmpReceiverRetry.RetrySurvivesExactly | pi-extensions/meta-bridge-receive-omp.ts:440-444 | a retry started inside a notice is still there when the ring is over if and only if no retry tick started that ring |
| OmpReceiverRetry.InnerRetryFate | pi-extensions/meta-bridge-receive-omp.ts:440-444 | the same over all that may still run inside the ring: without another edge or tick the session of that retry ends with its retry waiting, or, if the ring was a tick's, with neither doorbell nor retry |
| OmpReceiverRuns.TickDropsNewRetry | pi-extensions/meta-bridge-receive-omp.ts:440-444 | the failing run, in which no call fails: a tick arms and announces, an edge for a session not yet born starts a retry inside that notice, the tick clears it; the new session has no doorbell, no timer, and without another edge no tick ever comes |
| OmpReceiverRuns.OrphanSplits | pi-extensions/meta-bridge-receive-omp.ts:490-500 | the failing run: one clear throws, everything else succeeds, and a living process keeps the marker of a garden it no longer serves |
| OmpReceiverOrder.OrdersAgree | pi-extensions/meta-bridge-receive-omp.ts:290-353 | birth first or receiver first, the process ends armed for the garden birth gave the session; receiver first if and only if birth is done within the 40 ticks or the session was hosted already |
| OmpReceiverOrder.WaitsCount | pi-extensions/meta-bridge-receive-omp.ts:429-455 | ticks before birth only count, and the fortieth gives up and leaves no timer |
| OmpReceiverOrder.TickOnHosted | pi-extensions/meta-bridge-receive-omp.ts:440-444 | a tick that meets a born session and no failure leaves the process armed for its garden |
| OmpReceiverOrder.BirthKeepsIdentity | pi-extensions/lib/meta-session.ts:2105-2117 | birth keeps one garden per session and every sender marker vouched for by its record |
| OmpReceiverUnit.CallIsRun | pi-extensions/meta-bridge-receive-omp.ts:516-564 | an edge or a tick that runs to its end, with everything that runs inside the notices of its startup ring, is a run of the event machine, so whatever is proved of runs holds of it |
| OmpReceiverUnit.Receiver.OnEdge | pi-extensions/meta-bridge-receive-omp.ts:290-304 | the handler on the object and the shared stores, from outside or inside a notice, does what the specification's edge does, its startup ring run to its end |
| OmpReceiverUnit.Receiver.OnTick | pi-extensions/meta-bridge-receive-omp.ts:440-454 | the timer callback likewise; the clearing comes after the startup ring and takes whatever retry is stored by then |
| OmpReceiverUnit.Receiver.TryArm | pi-extensions/meta-bridge-receive-omp.ts:316-351 | the three-axis join and its refusals: what is retried, what is given up, what is armed |
| OmpReceiverUnit.Receiver.Arm | pi-extensions/meta-bridge-receive-omp.ts:363-417 | publishing, the exit listener and the startup ring in the source's order; inside a notice that ring is a request |
| OmpReceiverUnit.Receiver.Publish | pi-extensions/meta-bridge-receive-omp.ts:373-408 | mailbox, signal, watch, marker; a failed marker closes the watch again |
| OmpReceiverUnit.Receiver.Ring | pi-extensions/meta-bridge-receive-omp.ts:516-564 | the do-while loop, whose notices run any handlers of the same object: nested it leaves a request, otherwise it is the specification's ring from its first look to its end |
| OmpReceiverUnit.Receiver.Turned | pi-extensions/meta-bridge-receive-omp.ts:524-557 | one turn of the loop: look, notice, and go on exactly if a ring was requested and the notice returned |
| OmpReceiverUnit.Receiver.LookAround | pi-extensions/meta-bridge-receive-omp.ts:526-553 | one look up to the notice: the vanished signal unarms, otherwise read, stamp, recount and announce |
| OmpReceiverUnit.Receiver.RunInside | pi-extensions/meta-bridge-receive-omp.ts:546-553 | the handlers the vendor runs before a notice returns, on the same object, are those steps of the specification |
| OmpReceiverUnit.Receiver.Stamp | pi-extensions/meta-bridge-receive-omp.ts:542-545 | renames the fresh names one after the other, and says how far it came when one throws |
| OmpReceiverUnit.Receiver.OnSignal | pi-extensions/meta-bridge-receive-omp.ts:378-378 | the watch callback is a ring |
| OmpReceiverUnit.Receiver.OnExit | pi-extensions/meta-bridge-receive-omp.ts:580-589 | a registered exit listener unarms, one that could not be removed included |
| OmpReceiverUnit.Receiver.Unarm | pi-extensions/meta-bridge-receive-omp.ts:610-637 | closes the watch, releases the listener and removes the marker only if it is this pid's |
| OmpReceiverUnit.Receiver.ReleaseExitGuard | pi-extensions/meta-bridge-receive-omp.ts:591-599 | forgets the listener even where removing it throws, and leaves it registered then |
| OmpReceiverUnit.Receiver.StartRetry | pi-extensions/meta-bridge-receive-omp.ts:429-474 | a timer is started only where its own context can clear it |
| OmpReceiverUnit.Receiver.CancelRetry | pi-extensions/meta-bridge-receive-omp.ts:490-500 | the stored canceller is forgotten and clears exactly its own timer |
| OmpReceiverServes.SignalAnnounces | pi-extensions/meta-bridge-receive-omp.ts:516-557 | the watch fires on an armed receiver outside of a ring, whatever else it holds: if and only if something waits and no call fails, every waiting message is delivered under its new name with its body, nothing else is touched, and one notice with the number of all delivered messages is in flight |
| OmpReceiverServes.SignalOtherwise | pi-extensions/meta-bridge-receive-omp.ts:516-538 | unarmed nothing happens, inside a ring another look is asked for, and with the signal gone the doorbell is given back |
| OmpReceiverServes.EdgeAnnounces | pi-extensions/meta-bridge-receive-omp.ts:409-416 | an edge that comes to arm outside of a ring announces the mail waiting in the new garden's mailbox under the same condition |
| OmpReceiverServes.TickAnnounces | pi-extensions/meta-bridge-receive-omp.ts:440-444 | so does a tick, which has then still to clear its timer |
| OmpReceiverServes.ReturnExactly | pi-extensions/meta-bridge-receive-omp.ts:546-563 | when a notice returns the ring is over, or, if it returned and another look was asked for, announces what waits by then; a tick's ring that is over clears the stored retry |
| OmpReceiverServes.EdgeExactly | pi-extensions/meta-bridge-receive-omp.ts:290-353 | a tui edge ends armed for the session's garden if and only if marker, record and every call allow it; with a fresh retry if and only if the session may still be born and a timer can be had; and with neither otherwise; the ticks count anew, and arming inside a notice asks the ring under way for another look |
| OmpReceiverServes.OtherModesIgnored | pi-extensions/meta-bridge-receive-omp.ts:290-296 | an edge of any other mode changes nothing |
| OmpReceiverServes.TickExactly | pi-extensions/meta-bridge-receive-omp.ts:440-454 | a live tick counts, arms under the same condition, and leaves the retry if and only if the session may still be born and this is not the fortieth tick, or while its startup ring lasts |
| OmpReceiverServes.AttemptMakes | pi-extensions/meta-bridge-receive-omp.ts:373-377 | what an attempt leaves of the mailbox wherever it stops: made if it could be, its signal if that could be |
| OmpReceiverServes.AttemptTraces | pi-extensions/meta-bridge-receive-omp.ts:378-408 | a watch is opened if and only if everything before it succeeded, and it is kept under its marker if that can be written and closed again if not |
| OmpReceiverServes.DoorbellGivenBack | pi-extensions/meta-bridge-receive-omp.ts:610-637 | a broken watch and an exit close the watch and take our own marker away, and nothing else |
| OmpReceiverRings.HandlerIsTruthful | pi-extensions/meta-bridge-receive-omp.ts:524-557 | the mailboxes in the log of rings are the ones on disk: a ring that a handler has ended or a notice it has sent is of the mailbox as it is then |
| OmpDoorbell.EveryPassIsSound | pi-extensions/meta-bridge-receive-omp.ts:516-564 | every announcement of every ring was preceded by stamping every fresh message, lost none, had at least one, and named the number of all delivered ones |
| OmpDoorbell.RequestsAreServed | pi-extensions/meta-bridge-receive-omp.ts:516-564 | over a whole ring: each announcement is of what the notice before it left; a request during a notice that returns is always served, by another announcement or by a look that finds the signal gone, nothing fresh or a failing call; the loop ends after a notice exactly when it requested nothing or threw |
| OmpDoorbell.RingConserves | pi-extensions/meta-bridge-receive-omp.ts:516-564 | whatever ends a ring, its mailbox is the last one the loop met with so many of its fresh messages stamped, in order, and no body lost |
| OmpDoorbell.RangForNobodyExactly | pi-extensions/meta-bridge-receive-omp.ts:502-514 | "the rename means the doorbell rang", over whole rings: a ring leaves messages stamped since its last notice that returned, and nothing fresh that would make the bell ring again, if and only if its last look stamped everything and the recount failed, or its last notice threw and left some of those messages and nothing fresh |
| OmpDoorbell.SilentAfterwards | pi-extensions/meta-bridge-receive-omp.ts:539-541 | after such a ring every later one announces nothing until a new message comes |
| OmpDoorbell.StampedUnannounced | pi-extensions/meta-bridge-receive-omp.ts:542-557 | the failing recount: the ring announces nothing, all it found is stamped and counted as delivered, and later rings are silent |
| OmpDoorbell.ThrownUnannounced | pi-extensions/meta-bridge-receive-omp.ts:546-557 | the throwing notice: the attempt reaches nobody, all it was about is stamped and counted as delivered, and later rings are silent |
| OmpDoorbell.NothingLeftUnannounced | pi-extensions/meta-bridge-receive-omp.ts:516-564 | if senders poke the signal, a ring that ends undisturbed leaves no fresh message |
| OmpMailbox.PassConservesExactly | pi-extensions/meta-bridge-receive-omp.ts:539-546 | stamping keeps every message if and only if no fresh name's stamped file is still there |
| OmpMailbox.AnnouncedExactly | pi-extensions/meta-bridge-receive-omp.ts:546-553 | the announced number is the messages delivered before plus the fresh ones |
| OmpMailbox.StampingCounts | pi-extensions/meta-bridge-receive-omp.ts:542-545 | a pass loses exactly as many files as it replaces |
| AgyPermissionsSafety.OperatorRuleSurvives | scripts/agy-bridge-config.py:429-531 | over any history of installs, uninstalls, runs of either cut between their two writes, and operator edits, a rule that was the operator's and that the operator never removed is still granted and still the operator's |
| AgyPermissionsSafety.WrittenClaims | scripts/agy-bridge-config.py:429-480 | an install claims no rule that the settings granted before, unless the record before it did |
| AgyPermissionsRecords.UninstallFollowsTheRecord | scripts/agy-bridge-config.py:191-245 | over records of either version, by their members: a listed rule is gone after uninstall if and only if the record says it was not there before us, and a rule the record does not name stays |
| AgyPermissionsRecords.UnclaimedRuleStays | scripts/agy-bridge-config.py:429-531 | `OperatorRuleSurvives` by the members of the record: a listed rule that no record claims, or that a record of either version says was there before us, outlives every history in which the operator keeps it |
| AgyPermissionsRecords.ReinstallFollowsTheRecord | scripts/agy-bridge-config.py:444-480 | the same with a re-install, the migration of a version 1 record, in between, for our three rules; no other rule is ever taken away then |
| AgyPermissionsRecords.InstallExactly | scripts/agy-bridge-config.py:403-488 | install goes through if and only if settings, containers and record are sound; then exactly the missing ones of the three rules are behind the list and nothing else in any file has changed; otherwise nothing has, and the exit code is 3 for a link and 4 for the rest |
| AgyPermissionsRecords.InstallRecords | scripts/agy-bridge-config.py:443-480 | every member of the record an install writes: of each of our rules what an earlier record of these settings answers or else whether it was listed, of file and containers what that record says or else what is there |
| AgyPermissionsRecords.UninstallExactly | scripts/agy-bridge-config.py:491-535 | which of the exit codes 0, 2, 3 and 4 uninstall ends with, by what record and settings hold; a refusal changes nothing and a success removes the record and touches no other file |
| AgyPermissionsRecords.UninstallLeaves | scripts/agy-bridge-config.py:508-531 | over any sound record: exactly the listed rules that the record says were not there before us are out of the list, every other setting is as it was, and a file of ours goes if and only if nothing is left in it |
| AgyPermissionsRecords.SoundParses | scripts/agy-bridge-config.py:191-235 | the strict parser takes exactly the complete records of the two versions |
| AgyPermissionsRecords.CreatedExactly | scripts/agy-bridge-config.py:519-531 | a container counts as made by us exactly if its entry is missing or false to Python, the file exactly if mode and entry say so |
| AgyPermissionsInverse.RevokedExactly | scripts/agy-bridge-config.py:508-532 | uninstall leaves exactly `allow` without the owned rules, in order, changes no other key, and drops a container if and only if it is empty by then and install-made |
| AgyPermissionsInverse.ReinstallAbsorbedExactly | scripts/agy-bridge-config.py:429-480 | over any record the strict parser accepts and a present list, uninstall after a re-install equals uninstall alone if and only if every rule of ours recorded as the operator's is still listed, no retired rule of ours is, an empty list is not one the re-install would let go, and no container goes only because its entry is missing from the record |
| AgyPermissionsInverse.MissingEntryKeepsContainer | scripts/agy-bridge-config.py:443-444 | a container that uninstall alone drops because the record lacks its entry stays behind, empty, after a re-install |
| AgyPermissionsInverse.MissingEntryInput | scripts/agy-bridge-config.py:513-527 | a concrete record and settings file on which that is the only thing out of order |
| AgyPermissionsCrash.CutInstallStays | scripts/agy-bridge-config.py:463-481 | a first install cut between its two writes is never undone: later installs and an uninstall leave exactly what the cut left, which is what was there before if and only if all three rules were granted already |
| AgyPermissionsCrash.CutReinstallExactly | scripts/agy-bridge-config.py:455-481 | a re-install cut between its two writes is made good by the next install, as uninstall shows, if and only if every rule of this version is on the record already or was listed before the cut |
| AgyPermissionsInverse.StrandedRule | scripts/agy-bridge-config.py:455-480 | a listed rule an older version owned and this one no longer grants stays behind after re-install and uninstall |
| AgyPermissionsInverse.RestoredAgainstWish | scripts/agy-bridge-config.py:460-465 | an operator's rule removed by the operator comes back with a re-install and stays after uninstall |
| AgyPermissionsInverse.EmptyListDropped | scripts/agy-bridge-config.py:519-526 | an emptied list whose record owns nothing is left by uninstall, and dropped after a re-install |
| AgyPermissionsInverse.InstallsThenUninstall | scripts/agy-bridge-config.py:403-535 | any number of installs and one uninstall give back the same JSON value, or no file, with no record left; only a JSON null in a container place comes back as absence |
| AgyPermissionsInverse.RoundTripExactly | scripts/agy-bridge-config.py:413-425 | the round trip is exact if and only if neither container place holds a JSON null |
| AgyPermissionsCrash.UninstallRerun | scripts/agy-bridge-config.py:491-535 | an uninstall cut between its two writes and run again ends where the uninterrupted one would |
| AgyPermissionsLists.WrittenStateParses | scripts/agy-bridge-config.py:191-235 | every record an install writes is read back by the strict parser as the rules and provenance written |
| AgyPermissionsLists.GrantThenRevoke | scripts/agy-bridge-config.py:463-465 | appending the missing rules and then filtering those that were missing gives the old list back |
| AgyPermissionsLists.WithoutMembers | scripts/agy-bridge-config.py:519-520 | what stays of a list is exactly its elements that are not owned rules |
| AgyInstaller.Installer.PermissionInstall | scripts/agy-bridge-config.py:403-488 | the program over files is the planned install, its exit code the plan's, and a refusal leaves settings and record untouched |
| AgyInstaller.Installer.PermissionUninstall | scripts/agy-bridge-config.py:491-535 | the program over files is the planned uninstall, and a refusal leaves settings and record untouched |
| AgyInstaller.Installer.GrantRules | scripts/agy-bridge-config.py:463-465 | the loop appends exactly the missing rules |
| AgyInstaller.Installer.RevokeRules | scripts/agy-bridge-config.py:519-520 | the loop keeps exactly what is not owned, in order |
| AgyInstaller.Installer.ServerInstall | scripts/agy-bridge-config.py:248-295 | the program over files is the planned install, and a refusal leaves config and record untouched |
| AgyInstaller.Installer.ServerUninstall | scripts/agy-bridge-config.py:298-329 | the program over files is the planned uninstall, and a refusal leaves config and record untouched |
| AgyServer.InstallExactly | scripts/agy-bridge-config.py:248-295 | install goes through if and only if config, table and record are sound; then our entry is the command without arguments, nothing else has changed, and the record remembers what an earlier record of this config did, or else the entry found; otherwise nothing changes, with exit code 3 or 4 |
| AgyServer.UninstallExactly | scripts/agy-bridge-config.py:298-329 | the exit code by what record and config hold, and the config: our key as remembered or gone, everything else as it was, a file of ours gone with its last entry |
| AgyServer.InstallsThenUninstall | scripts/agy-bridge-config.py:248-329 | any number of installs, with whatever commands, and one uninstall put the server key back; a file the install made is gone |
| AgyServer.RoundTripExactly | scripts/agy-bridge-config.py:262-280 | the round trip is exact if and only if the server table is there and our key is no JSON null |
| AgyServer.UninstallRerun | scripts/agy-bridge-config.py:298-329 | an uninstall cut between its two writes and run again ends where the uninterrupted one would |
| AgyServer.CutInstallOverwrites | scripts/agy-bridge-config.py:271-295 | a first install cut between its two writes overwrites an operator's own entry for good: uninstall later puts ours back; what was there comes back if and only if it was our very entry |
| AgyDoctor.ReportMeans | scripts/agy-bridge-config.py:538-596 | what each report says about Deny > Ask > Allow: broad shadows exactly when a higher list holds a broad rule, exact shadows name a tool and its decision, a partial report lists exactly the tools that fall to Ask |
| AgyDoctor.ReportExactly | scripts/agy-bridge-config.py:538-596 | which report it is: a broad shadow before an exact one, `deny` before `ask`, the first matching item of that list; without a shadow, what `allow` alone says |
| AgyDoctor.AllowReportExactly | scripts/agy-bridge-config.py:575-596 | `configured` if and only if all three rules are listed, else covered by the server rule or else the wildcard, else partial with exactly the missing rules, else not configured |
| AgyDoctor.GreenExactly | scripts/agy-bridge-config.py:575-596 | `configured` or `covered-by-allow` if and only if all three tools evaluate to Allow |
| AgyDoctor.DoctorMeans | scripts/agy-bridge-config.py:538-551 | the same for every settings file, absent, empty and unreadable ones named as such |
| HookSwitch.StepBackedExactly | pi-extensions/meta-bridge-hook.ts:268-372 | a hook run keeps every receiver marker backed by its owner's sender marker if and only if it neither leaves an advertised garden it cannot retire nor advertises one its sender marker does not name |
| HookSwitch.RunsStayBacked | pi-extensions/meta-bridge-hook.ts:268-372 | so it stays over all processes and runs, if sender writes and removals succeed and non-arm events name the garden last established |
| HookSwitch.OneGardenPerProcess | pi-extensions/meta-bridge-hook.ts:268-310 | in backed stores a process advertises at most one garden |
| HookSwitch.SwitchMovesTheDoorbell | pi-extensions/meta-bridge-hook.ts:299-372 | a session switch moves the process's only advertisement to the new garden and no other process's |
| HookSwitch.RunMakesCitizen | pi-extensions/meta-bridge-hook.ts:217-372 | a run with session, transcript, a working store and a free id records its session under the old garden or the minted one; owner, event and calls decide exactly which sender and receiver markers are written and which one goes |
| HookSwitch.DegradedRunsDoNothing | pi-extensions/meta-bridge-hook.ts:217-262 | a run that lacks one of them leaves all stores as they are |
| HookSwitch.RecordsAreIdentity | pi-extensions/lib/meta-session.ts:2105-2117 | a native id keeps its garden and gardens stay distinct |
| HookSwitch.Hook.RunHook | pi-extensions/meta-bridge-hook.ts:177-390 | the run over the three stores in the source's order is one step of the specification |
| HookInterleaving.InterleavingsStayBacked | pi-extensions/meta-bridge-hook.ts:268-372 | however the store calls of any number of processes interleave, every receiver marker is backed by its owner's sender marker at every moment |
| HookInterleaving.AloneIsStep | pi-extensions/meta-bridge-hook.ts:177-390 | undisturbed, the store calls of a run are the one step of `HookSwitch` |
| HookInterleaving.UndisturbedIsStep | pi-extensions/meta-bridge-hook.ts:177-390 | the moves of one run from its start to its end, with no other move in between but other runs under way, are the one step of `HookSwitch` |
| HookInterleaving.OwnerlessIsUpsert | pi-extensions/meta-bridge-hook.ts:177-267 | a run whose owner is not known is one move of the interleaving, the one step of `HookSwitch`, whatever other runs are under way |
| HookInterleaving.MoveTakesExactly | pi-extensions/lib/meta-session.ts:2049-2062 | a store call takes a marker another process owns if and only if it is the unlink of a garden whose marker is another's by then |
| HookInterleaving.TakesExactly | pi-extensions/lib/meta-session.ts:2038-2062 | over any interleaving, a given store call takes another process's marker if and only if it is the unlink of a garden its run had found to be its own, and since that read another process has advertised the garden and nobody has removed that marker again |
| HookInterleaving.NoMarkerIsTakenExactly | pi-extensions/lib/meta-session.ts:2038-2062 | "a hook never retires a watch some other pid is holding" holds in an interleaving if and only if no unlink in it is overtaken so |
| HookInterleaving.UnlinkRace | pi-extensions/lib/meta-session.ts:2049-2062 | a concrete interleaving in which the unlink takes the marker another process has just written |
| ControlFraming.ChunkingIsInvisible | pi-extensions/entwurf-control.ts:829-836 | for every way of cutting the stream, the dispatched lines are the non-empty trimmed lines of the whole and the buffer is its unterminated tail |
| ControlFraming.LinesAreTheOnlySplit | pi-extensions/entwurf-control.ts:831-836 | lines and tail are the one reading of a text as newline-terminated lines and a rest |
| ControlFraming.OneCommand | pi-extensions/entwurf-control.ts:831-836 | a line is handed on trimmed, and not at all if and only if it is all white space |
| ControlFraming.CommandsConcat | pi-extensions/entwurf-control.ts:831-836 | lines are handed on one by one and in order |
| ControlFraming.SplitResumes | pi-extensions/entwurf-control.ts:830-836 | framing resumes: the tail and what follows give the remaining lines |
| ControlFraming.WrittenResponsesComeBack | pi-extensions/entwurf-control.ts:211-217 | responses written one after the other come back one per line, however the stream is cut, because no printed JSON text holds a raw newline |
| ControlFraming.QuotedReadsBack | pi-extensions/entwurf-control.ts:211-217 | every text in a response is read back whole by a reader of section 7 of RFC 8259, which stops where it ends |
| ControlFraming.Connection.OnData | pi-extensions/entwurf-control.ts:829-836 | the in-place loop dispatches exactly the non-empty trimmed lines and keeps the tail |
| ModelLock.LockedExactly | pi-extensions/model-lock.ts:145-182 | after any run the session is locked if and only if some event locked it (a turn, a resume, a fork, a start or reload with a message or unreadable entries) and no fresh empty start came after |
| ModelLock.SwitchAnsweredExactly | pi-extensions/model-lock.ts:184-221 | a switch is answered with a revert to the previous model if and only if the session is locked, no revert is under way, the model changes across the entwurf boundary and it is no restore |
| ModelLock.OtherEventsMean | pi-extensions/model-lock.ts:145-182 | starts and turns decide about the lock and nothing else; a landing needs a revert under way; a resolution ends it |
| ModelLock.RevertPutsBack | pi-extensions/model-lock.ts:221-233 | such a revert, landed and resolved, leaves everything as before the switch but for the two events |
| ModelLock.LockHolds | pi-extensions/model-lock.ts:184-234 | from the start of the process: after an event that locks, a session keeps its entwurf model, or never becomes an entwurf one, at every quiescent point of the undisturbed rest of the run |
| ModelLock.OneNestedEventPerRefusal | pi-extensions/model-lock.ts:221-233 | every refused switch costs exactly one nested `model_select`, so reverting terminates |
| ModelLock.RunsKeepExactly | pi-extensions/model-lock.ts:184-234 | over any run in which nothing unlocks, restores, racing switches and failing reverts included, a locked session's model is kept or on its way back after every event if and only if no event is a breaking switch that comes as a restore or after a landing, or a revert that resolves over a breaking model without having landed |
| ModelLock.StepKeepsExactly | pi-extensions/model-lock.ts:184-234 | the same for one event |
| ModelLock.SwitchEscapesExactly | pi-extensions/model-lock.ts:184-221 | a switch gets past the lock if and only if it breaks it and comes as a restore or after a revert landed and before it resolved |
| ModelLock.FailedRevertKeepsTheSwitch | pi-extensions/model-lock.ts:221-233 | a revert that resolves without landing leaves the refused model in place, and the lock is broken if and only if that model breaks it |
| ModelLock.WindowRace | pi-extensions/model-lock.ts:221-233 | a concrete run in which a second switch inside the window stays |
| ModelLock.Lock.OnModelSelect | pi-extensions/model-lock.ts:184-221 | the handler up to its await asks for a revert exactly on a refused switch outside a revert |
| ModelLock.Lock.SetModel | pi-extensions/model-lock.ts:184-221 | a selection with its nested event is one step of the specification |
| ModelLock.Lock.OnSessionStart | pi-extensions/model-lock.ts:157-176 | the lock policy per start reason |

## Left out

- OmpBootstrapSafety.AtMostOnce: vendor re-entry is modelled inside `sendUserMessage` only; a flag read, a status line or a log call that fired another birth edge from within is not.
- OmpReceiverSafety.RunsAgreeExactly: assumes that removing a marker and closing a watch succeed, that watchers are new objects, and that other writers forge no marker in a running receiver's name; a handler is interleaved with others inside its notices only, not between its other calls.
- OmpReceiverRetry.OrphansAreThrownClears: assumes that a context hands out new timers.
- OmpReceiverRetry.RunsStayCoherent: assumes besides that no timer fires inside a notice, which is a synchronous call; so does `TicksAreBounded`.
- OmpReceiverSafety.ForeignMarkersStay: the read and the removal inside unarm are one step, as are the check and the write of a marker.
- OmpReceiverUnit.Receiver.RunInside: the process does not exit inside a notice of the class; a script of looks that runs out reads as a directory that cannot be listed.
- OmpReceiverOrder.OrdersAgree: birth is one step over the stores, and the minted garden id is the same draw in both orders; failing calls after birth, and handlers inside the notice of the startup ring, are not part of the statement (`OmpReceiverRetry.InnerRetryFate` shows why).
- OmpDoorbell.EveryPassIsSound: assumes truthful directory reads and that senders never reuse a name whose stamped file remains; the order of the renames (the sort) is left open; `RangForNobodyExactly` makes the same assumptions.
- AgyPermissionsInverse.ReinstallAbsorbedExactly: stated for settings whose `allow` list is present.
- AgyPermissionsSafety.OperatorRuleSurvives: an operator's edit of the record file itself is not an action of the history.
- ModelLock.RunsKeepExactly: a fresh empty session start drops the lock, so runs are between two of them; the vendor's own model change at a session start is a restore.
- HookSwitch.RunsStayBacked: assumes what `Orderly` says; pid reuse, start keys and liveness probes are not modelled.
- HookInterleaving.InterleavingsStayBacked: the upsert is one move and the runs of one process do not overlap; `Orderly` is assumed where a run starts. `NoMarkerIsTakenExactly` needs no `Orderly`, but no run under way at the start.
- ControlFraming.WrittenResponsesComeBack: the members of a response are given, lone surrogates are not treated apart; only the strings of a printed value are read back; parsing a command line and answering it asynchronously are not modelled.
- JSON text: settings and payloads are values, so layout, duplicate keys and member order are not captured; a symlinked record file is not either.
- `rootsFor` throwing, logging, status text, and the wording of prompts and notices.
- `clean-legacy`, `doctor-static`, `doctor-invocation` and the state doctor: single reads or a single key, easier than what is here.
- The ACP backend, the session store's certification and its file formats, the other backends' hooks and receivers.
