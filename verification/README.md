# Relay session model

The relay carries many logical streams between a client app and local TCP backends over one carrier
session. The client's side of a carrier is a bridge page: it packs the app's frames into numbered
uplink bodies, resends them until they are acknowledged, and long-polls for downlink batches. The
relay's side is a `Session` (streams, tombstones of closed ids, a coalescing downlink queue, carrier
lanes, a pending budget) under a `Manager` (a shared budget pool, stream counters, rate buckets,
bootstraps). This project models both sides and the network between them, and proves that together
they deliver every stream's bytes in order, once, within bounded memory, with no accounting panic.

Each critical section under `s.mu` or `m.mu` is one atomic step. `ProcessUp` is two, because it parses
without the lock. Closing the session after a failure is a step of its own, as in the source. Channel
wake-ups, dial results, partial socket writes, timers and the network are nondeterministic: they
appear as events, and the theorems hold for every sequence of events.

## How the files fit together

- `Octets`, `Outcomes`, `Frames`, `BridgeFrames`, `Packer`: the codec, the bridge's own frame reader and
  the bridge's uplink batcher.
- `Limits`, `Charges`: budget arithmetic and sums over tables.
- `Queue`, `DownQueue`: the downlink queue as a list of frames, and the indexed, coalescing buffer queue
  that refines it.
- `Tombstones`, `Streams`, `Poll`, `Uplink`: the ring of closed ids, one stream's buffer and write loop,
  and the relay's half of the two stop-and-wait protocols. `UplinkRun` (in `Uplink.dfy`) and
  `DownlinkRun` close each protocol with the bridge and a network that loses, delays, repeats and
  reorders.
- `SessionState`, `Batch`, `BatchLaws`, `SessionSteps`: a session as a value, the primitives every
  operation is made of, one uplink batch (validate, reserve, apply), and a step for every critical
  section with the equations every run keeps. `PoolRun` runs many sessions over one pool.
- `UplinkSteps`, `Carriers`: the one batch an uplink step applies, and what every step does to streams and to
  carriers, in any carrier mode. On these rest five accounts of a session's runs, kept from the events and
  answers alone: `Accounts` (each stream's credit, payloads and chunks), `Exchanges` (each carrier's numbered
  bodies and its socket), `LaneLives` (how lanes begin and end), `Owners` (which backend has which stream) and
  `Validity` (which batches are accepted and what they reserve).
- `Session`: the session as a class whose methods are proved equal to those steps.
- `DataShare`: the pool's charges by class over the same runs, and why control frames find room;
  `Reserves`: which runs leave them that room.
- `OneCarrier`, `Tales`, `RelayWorld`: app, bridge, network, session and backend loops in one run, and
  the end-to-end theorems. `LaneWorld` has them for a lane of a session in HTTPS lane mode, with anything
  going on beside it. `CreditWorld` adds credit to the runs of `RelayWorld`; `FlowRun` is one stream's
  credit in detail, in both directions.
- `WorldRuns`: the runs of `RelayWorld` are, for their session, runs of `SessionSteps`, so what holds of those
  holds there.
- `Loops`: a session with a write loop and a read loop per backend, and when a stream id may be used again.
- `Witness`, `Halfway`: small configurations, and full runs that show what goes wrong where a theorem's
  condition fails.
- `Rates`, `PairedRates`, `Tallies`, `Accounting`, `Bootstraps`: the manager.

A plain function is the specification; a method that updates fields or loops is proved against it.
`hide` statements only narrow what a proof looks at.

## Where the code and its documentation differ

- `ValidateBudget` is documented to reject a configuration that leaves the data budget at zero. It
  accepts one whose summed reserve equals the pool, and there the data budget is zero
  (`ValidateBudgetMeaning`, `ValidateBudgetAdmitsZeroDataBudget`).
- `validateBatchLocked` accepts late frames of any id remembered when the batch starts. A tombstone can be
  evicted while the same batch is applied, and then a later frame of that stream dereferences a missing
  stream. `ValidatedBatchApplies` says exactly when, and `AdmittedBatchCrashesIff` does so from the ring and
  the frames alone when every OPEN is admitted; `EvictedTombstoneIsMissed` and `CrashIsReached` show it;
  `RoomInRingIsEnough` and `RoomForAppIsEnough` give simpler guards, and in lane modes it cannot happen
  (`LaneModesNeverCrash`).
- An apply that stops halfway leaves its sequence unmoved, and the session closes only after the lock is
  given up (`internal/session/session.go:307-330`). A retry of the same body in between is refused by the
  tombstone of the OPEN that stopped it. Once the ring has forgotten every id the body opens, and none of
  them is live, the rest of the body still fits and the budget has room, it takes effect a second time:
  `BodyRepeatsIff` is that condition, `ByteIsWrittenTwice` a whole run, and `RoomForAppIsEnough` the guard
  under which no run does. A lane whose tombstone is evicted goes too, and its first body sent again starts
  it over (`FirstBodyRepeatsIff`); `RoomKeepsLane` is the guard there.
- Stream ids are documented as never reused (`PROTOCOL.md:386`, `PROTOCOL.md:432`). The relay refuses
  reuse only while it remembers the id, and both of a backend's loops look their stream up by id alone.
  From the new OPEN on, sockets and client get only bytes of their own stream exactly when no earlier
  backend of the id can still write or read and no DATA of the id is queued or unacknowledged
  (`ReopeningIsHarmlessIff`). With its stream gone, a write loop that waits with no signal pending can only
  return, and so can a read loop with nothing in hand whose connection is closed; any other that has not
  returned counts.
  `ReusedIdLosesBytes` and `ReusedIdMixesStreams` are runs in which an old write loop and an old read loop
  go wrong. The end-to-end theorems, which speak of a stream's bytes by its id, ask that the app use each
  id once.
- `PROTOCOL.md:398` says DATA still queued for a closed stream is dropped on either side. The relay drops
  buffered backend writes, but leaves downlink frames already queued in place; the model follows the
  code.

## Model

| member | source | states |
|---|---|---|
| RelayWorld.BackendGetsPrefixOfApp | internal/session/session.go:248-335 | In every run of app, bridge, lossy network, session and backend loops of an app whose OPEN and CLOSE frames fit the ring (and in any other as long as the ring keeps the tombstones its commits need): the bytes written to a stream's socket, and those about to be, are a prefix of the DATA payloads the app sent for that stream, in order, none twice |
| RelayWorld.AppGetsPrefixOfBackend | internal/session/session.go:1006-1018 | In the same runs, the bytes the app is given for a stream are a prefix of the bytes its backend sent |
| RelayWorld.QuietMeansAllDelivered | internal/session/session.go:908-967 | Once all the app's bytes are applied and a live stream's write buffer is empty, its socket has had exactly all of that stream's DATA |
| RelayWorld.AppIsNeverOversent | internal/session/session.go:1006-1018 | In the same runs a live stream's credit and the bytes queued for it stay within the initial window and the WINDOW frames applied; the app is given no more of a stream than the window and its own WINDOW frames allow |
| WorldRuns.WorldRunsSession | internal/session/session.go:248-1033 | The session of such a run is that of a run of session steps, so every law of those holds of it |
| WorldRuns.LiveBufferIsBounded | internal/session/session.go:886-967 | In the same runs, while a write loop runs: pending items are at most two for every DATA_CHUNK + 1 pending bytes, and two more; pending bytes at most those in hand and one largest chunk an item |
| RelayWorld.FramesTakeEffectOnce | internal/session/session.go:291-335 | In the same runs the frames put into effect, those of a batch stopped halfway included, are a prefix of the app's frames and hold all those acknowledged; no body is applied after one that stopped halfway |
| RelayWorld.RoomForAppIsEnough | internal/session/session.go:1331-1347 | With at most MaxClosedStreamIDs OPEN and CLOSE frames every run is safe: no commit meets a missing stream, and a body that stopped halfway stays barred until the session closes |
| RelayWorld.HeldRingIsRegular | internal/session/session.go:720-744 | While the ring holds the tombstones of a batch's late frames, and after a halt one of its OPENs, a commit neither crashes nor repeats |
| RelayWorld.BodyRepeatsIff | internal/session/session.go:297-330 | A resent body takes effect exactly when every id it opens is forgotten and not live, the rest of it still fits, and the budget has room |
| Halfway.ByteIsWrittenTwice | internal/session/session.go:307-330 | A whole run, ring of one tombstone: the ring holds until a closure evicts the halt's tombstone before Close; the bridge's retry is applied again and a backend's socket gets one byte twice |
| LaneWorld.LaneBackendGetsPrefixOfApp | internal/session/session.go:337-428 | One lane in HTTPS lane mode, whatever the other lanes do: the bytes written to its backend's socket, and those about to be, are a prefix of the DATA the app sent on it, while fewer than MaxClosedStreamIDs streams open, close or end beside it (or the ring keeps its tombstone anyway) |
| LaneWorld.LaneAppGetsPrefixOfBackend | internal/session/session.go:558-691 | In the same runs the bytes the app is given on the lane are a prefix of what its backend sent |
| LaneWorld.LaneFramesTakeEffectOnce | internal/session/session.go:386-428 | In the same runs the frames applied on the lane are a prefix of the app's, and no body is applied after one that stopped halfway |
| LaneWorld.LaneQuietMeansAllDelivered | internal/session/session.go:908-967 | With all the lane's frames applied and its buffer empty, a live stream's socket has all its DATA |
| LaneWorld.LaneAppIsNeverOversent | internal/session/session.go:1006-1018 | The lane's app is given no more than the window and its own WINDOW frames allow, and what the stream may still send comes out of the same |
| LaneWorld.RoomKeepsLane | internal/session/session.go:1331-1347 | The guard for those runs: with fewer than MaxClosedStreamIDs OPEN and CLOSE frames and backend ends elsewhere, no step forgets the lane's stream |
| LaneWorld.FirstBodyRepeatsIff | internal/session/session.go:361-404 | A stream's first body sent again takes effect exactly when its lane is gone, no OPEN in it names a known id, the rest of it fits and the budget has room; while the lane is there it changes nothing |
| LaneWorld.BesideLeaves | internal/session/session.go:337-444 | Nothing done on other lanes or streams touches this one's lane, stream or protocol state, unless it closes the session or evicts the stream's tombstone |
| LaneWorld.UplinksSound | internal/session/session.go:361-428 | ProcessUpLane's one critical section, in every outcome and at a new lane or an old one, keeps the lane in step with both protocol runs and its stream's history exact |
| RelayWorld.StepSound | internal/session/session.go:248-556 | Every step, with the ring holding what a commit needs, keeps the session's own carrier in step with both protocol runs, the applied frames a prefix of the app's, and every stream's history exact |
| RelayWorld.CommitsSound | internal/session/session.go:291-335 | The commit step, whole, refused or stopped halfway, before or after an earlier halt: the frames it applied continue the app's, and each stream's accepted bytes grow by exactly its DATA among them |
| RelayWorld.TombsWithinClosings | internal/session/session.go:1331-1347 | The ring never holds more ids than OPEN and CLOSE frames have been applied |
| Tales.ApplyTold | internal/session/session.go:814-884 | Through one batch every stream's accepted bytes equal its DATA in the frames applied while it lives, and stay a prefix after |
| Tales.SocketWritesTold | internal/session/session.go:939-954 | A drain report moves exactly the reported bytes from the buffer to the socket's history, or stops the loop |
| Tales.ReadDataTold | internal/session/session.go:1552-1573 | Bytes a backend sent are queued in order until the first refusal, after which none are |
| Tales.BackendGoneTold | internal/session/session.go:1020-1033 | A backend's end leaves every other stream's history as it was |
| OneCarrier.ApplyQueued | internal/session/session.go:833-843 | A batch queues nothing on the carrier but a CLOSE for each refused OPEN, in order |
| OneCarrier.GoneQueued | internal/session/session.go:1020-1033 | backendClosed queues one CLOSE, or closes the session, or does nothing |
| UplinkRun.AppliedInOrderOnce | internal/session/session.go:256-335 | With bodies resent, delayed, repeated and reordered, and ProcessUp in two lock regions, the bodies committed are a prefix of the bridge's, each once; acknowledged bodies are among them and at most one more is |
| UplinkRun.EachTakesEffectOnceIff | internal/session/session.go:307-335 | Counting halfway applies too: every apply is of the body that follows those committed, and each body takes effect at most once if and only if nothing is applied after a halt |
| UplinkRun.AppliedBytesArePrefixOfSource | internal/bridge/page.go:229-241 | The committed bytes are a prefix of what the app queued and extend what is acknowledged |
| UplinkRun.AppliedFramesArePrefixOfApp | internal/frame/frame.go:57-89 | However bodies were cut, the committed frames are a prefix of the app's frames |
| SessionSteps.RefusalsCommitNothing | internal/session/session.go:275-330 | ProcessUp at any state: a rejected, backpressured, busy, repeated or late request changes nothing but upActive; a batch stopped halfway has put exactly the frames before a refused OPEN into effect, with that OPEN's tombstone, and moved no sequence |
| SessionSteps.LaneRefusalsCommitNothing | internal/session/session.go:361-440 | ProcessUpLane likewise, but for the lane a first OPEN has already entered |
| BatchLaws.AbortHaltsAt | internal/session/session.go:832-843 | Where an apply stops halfway: at an OPEN refused by capacity whose CLOSE finds no room, every frame before it applied |
| BatchLaws.ValidateIff | internal/session/session.go:720-785 | A batch is valid exactly when its OPENs are new to live streams, tombstones and each other, and everything else in it fits |
| Validity.ValidBatchIff | internal/session/session.go:720-785 | A batch is valid if and only if every frame fits the session and the frames before it: OPENs new, everything else of an id live, remembered or opened before, and each stream's DATA added up within its window |
| Validity.ReservationIsForData | internal/session/session.go:787-812 | A valid batch reserves for each DATA frame of a stream neither remembered nor closed before it, and no more |
| Validity.BackpressureIff | internal/session/session.go:297-306 | Rejected exactly when some frame does not fit; backpressure exactly when a valid batch's DATA finds no room beside the control reserves of the session and of all sessions |
| UplinkRun.RetryIsNeverRefused | internal/session/session.go:262-279 | The bridge's retry is acknowledged, busy or begun, never a protocol error, at every point of the exchange |
| UplinkRun.ClosedStaysQuiet | internal/session/session.go:292-296 | A closed session applies nothing more, whatever handlers are still parsing |
| UplinkRun.CanAlwaysAcknowledge | internal/session/session.go:253-335 | From every reachable open state some continuation has the bridge's outstanding body applied and acknowledged |
| Exchanges.RepeatIsAcknowledgedIff | internal/session/session.go:253-281 | In every run, whoever sends: a request is acknowledged if and only if it is, body and number, the last one taken whole; begun or busy if its number is next; every other repeated or misnumbered one is rejected |
| Exchanges.LaneRepeatIsAcknowledgedIff | internal/session/session.go:393-428 | The same for a lane that is there, whose bodies are numbered from one: repeat acknowledged with no change, other numbers rejected with no change, the next acknowledged if and only if it is taken whole |
| Exchanges.LateFramesAreAcknowledged | internal/session/session.go:372-392 | Where there is no lane: late frames alone are acknowledged and change nothing, a body not beginning with OPEN is rejected, any other enters the lane |
| Exchanges.SocketIsGrantedIff | internal/session/session.go:192-218 | In every run a socket is granted a lane exactly when none holds it, its id is not remembered and the bound leaves room |
| Exchanges.OneSocketPerLane | internal/session/session.go:213-216 | From a grant until the lane is gone no other socket is granted it |
| UplinkRun.NextBodyFollows | internal/session/session.go:271-281 | The one handler between the lock regions holds the body that comes next |
| DownlinkRun.AppSeesPrefixOfQueued | internal/session/session.go:446-556 | What the app is given spells out a prefix of what the relay queued, byte for byte, and never more credit |
| DownlinkRun.PostedIsPrefixOfTaken | internal/bridge/page.go:242-255 | Batches reach the app in the order taken, none skipped or repeated, at most one outstanding |
| DownlinkRun.QuietMeansDelivered | internal/session/session.go:490-506 | With nothing queued and the last batch acknowledged, the app has seen all of it |
| DownlinkRun.CanAlwaysDeliver | internal/session/session.go:446-556 | From every reachable open state some continuation delivers all that is queued: the exchange is never stuck |
| DownlinkRun.NotifiedOwnerTakes | internal/session/session.go:488-552 | In every run the poll that owns the slot is a parked one; notified with frames queued it moves the longest batch to the client, with none it stays parked |
| DownlinkRun.RetryIsNeverRefused | internal/session/session.go:459-481 | The bridge's next request is never refused by an open session, whatever was lost |
| DownlinkRun.StaleRequestIsReplayedOrRefused | internal/session/session.go:459-481 | A stale cursor gets exactly the batch taken at that cursor, or is refused; it moves nothing |
| Poll.EnterMeaning | internal/session/session.go:459-506 | What each cursor is answered on arrival: replay, refusal, a batch, or the slot; nothing else changes |
| Poll.ResumeMeaning | internal/session/session.go:507-555 | What the slot's owner answers to each wake-up: notified, frames make a batch, else the session's end, the lane's end or neither decide; at its deadline it takes what is there and leaves; done, it gives up the slot |
| Poll.DisplacedPollIsHarmless | internal/session/session.go:519-553 | Only the poll that owns the slot can take a batch; a displaced one returns empty and changes nothing |
| Poll.EnterKeepsHandOver | internal/session/session.go:482-491 | An unacknowledged batch sits one cursor back with nobody parked; the parked poll carries the current cursor |
| Poll.ResumeKeepsHandOver | internal/session/session.go:519-553 | The same after every wake-up |
| SessionSteps.BudgetIsConserved | internal/session/session.go:1375-1399 | At every lock release of every run in every carrier mode the pending counters equal queued, unacknowledged and buffered charges, and releasePendingLocked never panics |
| SessionSteps.StructureIsKept | internal/session/session.go:1331-1347 | At every lock release windows balance buffers, live and remembered ids are disjoint, live streams have their lane, the ring is duplicate-free and bounded, every carrier's hand-over holds, and no DATA frame queued would have fitted into its stream's just before it |
| SessionSteps.LaneModesNeverCrash | internal/session/session.go:337-444 | In lane modes no run loses a tombstone within a batch |
| SessionSteps.CrashMeansLostTombstone | internal/session/session.go:737-744 | Elsewhere a crash means a batch outlived one of its streams' tombstones, and carried more OPEN and CLOSE frames than the ring had room for |
| SessionSteps.StepInv | internal/session/session.go:814-1033 | Every critical section keeps the session's equations |
| SessionSteps.FinishesInv | internal/session/session.go:291-317 | The second lock region of ProcessUp: equations kept, or a tombstone lost |
| SessionSteps.UpOnLaneInv | internal/session/session.go:337-444 | ProcessUpLane keeps the equations and never crashes |
| SessionSteps.PollArrivesInv | internal/session/session.go:558-610 | An arriving poll releases exactly the acknowledged batch's charge |
| SessionSteps.DrainedInv | internal/session/session.go:939-954 | A drain moves its bytes from the budget to the receive window |
| SessionSteps.LaneReleasedInv | internal/session/session.go:220-246 | A lane's release returns all it was charged and leaves no live stream without a lane |
| Accounts.CreditIsExact | internal/session/session.go:1006-1018 | In every run of a session, any carrier mode, any client: a live stream's credit is the initial window and the WINDOWs since its OPEN, less every byte queued or lost for want of room, until a WINDOW takes it past MAX_UINT32, and at most that after |
| Accounts.DataIsQueuedIff | internal/session/session.go:1006-1018 | What a backend has read is queued if and only if its stream's history leaves credit for it and the budget has room |
| Accounts.BufferIsPacked | internal/session/session.go:886-903 | In the same runs every buffered chunk is nonempty, and at most DATA_CHUNK bytes or one DATA frame's payload; neighbours together exceed DATA_CHUNK; chunks handed out and buffered spell the accepted payloads |
| Accounts.ItemsFollowBytes | internal/session/session.go:886-967 | Apart from chunks handed out and not reported back, pending items and bytes bound each other both ways |
| Owners.BackendsAreAccountedFor | internal/session/session.go:814-884 | In every run, through every batch: backends live before and started are those live after and ended, each once, and no two streams share one |
| Owners.OnlyItsOwnStreamEnds | internal/session/session.go:1020-1033 | A backend's end ends its own stream, which is remembered, and no other; under another backend's id it changes nothing |
| LaneLives.LaneIsOverIff | internal/session/session.go:611-633 | In every run an accepted poll of a lane gets the frames queued, with none is told the lane is over exactly once its stream has ended, and waits otherwise |
| LaneLives.LaneGoesWithItsTombstone | internal/session/session.go:1331-1347 | No step leaves a lane whose tombstone it has let go |
| LaneLives.ForgottenPollIsHarmless | internal/session/session.go:634-639 | A poll parked on a lane given up since touches nothing, even if the lane was entered again |
| LaneLives.LaneFailureIsLocal | internal/session/session.go:1407-1413 | Over WebSockets a lane's protocol failure ends that lane and its stream and nothing else but a lane whose tombstone is pushed out; over HTTPS it ends the session |
| LaneLives.OneSocketEver | internal/session/session.go:182-190 | A session without lanes grants its WebSocket once in a run |
| SessionState.QueueFrameInv | internal/session/session.go:1035-1158 | Queuing charges exactly what it reserves, merged or appended |
| SessionState.RememberClosedInv | internal/session/session.go:1331-1347 | Remembering keeps live and remembered ids apart, and an eviction returns its lane's charge |
| SessionState.CloseSessionInv | internal/session/session.go:1415-1451 | Closing returns everything to the pool |
| BatchLaws.ValidatedBatchApplies | internal/session/session.go:720-884 | A validated, reserved batch applies within its reservation with no underflow, and fails only, and always unless stopped first, when a tombstone is lost on the way |
| BatchLaws.AdmittedBatchCrashesIff | internal/session/session.go:720-884 | A batch whose OPENs are all admitted meets a missing stream if and only if it has a DATA, WINDOW or CLOSE frame of an id with MaxClosedStreamIDs or more closures after its own, counted over the ring and the CLOSE frames before it |
| BatchLaws.RoomInRingIsEnough | internal/session/session.go:1331-1347 | With room in the ring for the batch's OPEN and CLOSE frames it never meets a missing stream |
| BatchLaws.EvictedTombstoneIsMissed | internal/session/session.go:737-755 | With the ring full, a CLOSE followed by late DATA of the oldest remembered id passes validation and dereferences a missing stream |
| Witness.CrashIsReached | internal/session/session.go:854-881 | A whole run to a full ring with a stream live, and the body that then dereferences a missing stream |
| Witness.LanesGrow | internal/session/session.go:374-412 | In HTTPS lane mode, any number of lanes: a batch refused by a full pool leaves a lane with neither stream nor tombstone |
| BatchLaws.LaneBatchNeverLoses | internal/session/session.go:337-362 | A lane's batch carries one stream and cannot lose its tombstone |
| BatchLaws.BatchIsFrameByFrame | internal/session/session.go:720-785 | Each frame of a validated batch would pass on its own where the batch reaches it |
| BatchLaws.RefusedOpenSwallows | internal/session/session.go:832-843 | A refused OPEN makes the rest of its stream's frames no-ops |
| BatchLaws.OneBackendPerGrant | internal/session/session.go:832-853 | Every stream admission control grants gets exactly one backend, also when apply stops halfway |
| BatchLaws.OneUplinkBatchFits | internal/session/session.go:1172-1258 | Within unsaturated downlink limits, any parsable body of MaxBodyBytes passes the session's uplink reservation |
| BatchLaws.ReservationWithinBody | internal/session/session.go:787-812 | A batch's reservation is bounded by its body length and frame count |
| PoolRun.PoolIsConserved | internal/session/manager.go:469-506 | Over every run of the whole relay the pool is the sum of its sessions' counters, never negative nor past its limit, and no session exceeds its own |
| PoolRun.StepFair | internal/session/session.go:1246-1265 | A session moves its own counter and the pool's together and raises neither past its limit |
| Limits.ValidateBudgetMeaning | internal/session/session.go:1157-1170 | The configurations accepted are those whose summed reserve fits the pool; the data budget is positive exactly when it does not equal it |
| Limits.ValidateBudgetAdmitsZeroDataBudget | internal/session/session.go:1157-1170 | An accepted configuration in which no DATA is ever admitted |
| Limits.ControlReserveHolds | internal/session/session.go:1172-1183 | The control reserve holds three control frames a stream and sixteen more and not one beyond, unless the formula is cut off for overflow; then it is all the session may hold |
| Limits.UplinkReserveHolds | internal/session/session.go:1185-1194 | The uplink reserve holds the longest body with as many frames as a body can have, and no more |
| Limits.PoolAdmitsIff | internal/session/manager.go:475-499 | With an accepted configuration the pool admits a charge exactly when it fits, for DATA beside every session's control reserve |
| Limits.SessionAdmitsIff | internal/session/session.go:1212-1265 | A session admits a charge exactly when it fits beside what is kept back for the classes above its own |
| Limits.DataAdmissionLeavesHeadroom | internal/session/manager.go:475-499 | Every admitted data reservation leaves every session's control reserve free in the pool |
| DataShare.DataStaysInItsShare | internal/session/manager.go:475-499 | Over every run of the whole relay, what is charged for DATA stays within the pool's data limit all together and within each session's own |
| Reserves.FewOpensNeverRefuseControl | internal/session/session.go:1172-1183 | In every run of the whole relay in which each session has at most MaxStreamsPerSession + 5 OPEN frames take effect and queued credit stays below 4 GiB a stream, the pool never refuses a session's next control frame (the reserve formula not cut off for overflow) |
| Reserves.FewOpensQueueControl | internal/session/session.go:1035-1091 | Nor, within its own stream limit, does the session: the frame is queued |
| Reserves.FrugalWithin | internal/session/session.go:1172-1183 | Three frames for every OPEN that took effect bound the control frames a session holds, in every carrier mode |
| Reserves.StepFrugal | internal/session/session.go:1035-1158 | Every critical section keeps one queued and one unacknowledged WINDOW a stream and one CLOSE an OPEN at most |
| DataShare.ControlIsNeverRefused | internal/session/manager.go:475-499 | For any control frame, however many streams were opened: while each session's control frames stay within one session's reserve, the pool does not refuse it |
| DataShare.ControlFrameIsQueued | internal/session/session.go:1035-1091 | Nor does the session: the frame is queued |
| DataShare.StepShare | internal/session/session.go:1246-1265 | Whatever a session does, its data share does not grow, or is within the data limit with all that others hold |
| Queue.PushRefinesAppend | internal/session/session.go:1035-1091 | Coalescing spells out the same bytes and closes as appending, loses no credit, and grows the charge by exactly what it asks for |
| Queue.TakeIsTake | internal/session/session.go:1267-1297 | A batch is the longest front within both bounds, at least one frame |
| Queue.TakenBatchParses | internal/session/session.go:1267-1297 | A taken batch parses at the client into the frames taken |
| Queue.LastWindowAfterTake | internal/session/session.go:1286-1293 | Where each stream's latest WINDOW frame stands once a front is gone |
| DownQueue.DownQueue.QueueFrame | internal/session/session.go:1035-1091 | The indexed buffer queue does what the list does, in place, with the index exact |
| DownQueue.DownQueue.MergeEarlier | internal/session/session.go:1039-1054 | A WINDOW joins its stream's latest queued one unless the sum overflows 32 bits |
| DownQueue.DownQueue.TakeDownBatch | internal/session/session.go:1267-1297 | The body is the encoding of the frames taken, the cost their charge, and the index is rebuilt exactly |
| DownQueue.DownQueue.CountBatch | internal/session/session.go:1268-1279 | The counting loop finds the front TakeIsTake describes, and its charge |
| CreditWorld.CreditIsNeverOverrun | internal/session/session.go:749-757 | Over whole runs of app, network, session and backends: an app within its first windows and the credit posted to it since never has a batch rejected for overrunning a receive window |
| CreditWorld.StepCredited | internal/session/session.go:939-954 | Every step keeps each stream's granted credit and buffered bytes together within what it has accepted |
| FlowRun.CreditIsConserved | internal/session/session.go:854-862 | One stream in detail: client credit, DATA and WINDOW under way, and buffered bytes add up to the initial window while no WINDOW is refused |
| FlowRun.SentWithinGrants | internal/session/session.go:1006-1018 | What one stream has been sent and may still be sent never exceeds what the client has granted |
| Streams.WritesAreFaithful | internal/session/session.go:886-967 | Under every interleaving the bytes on a socket are a prefix of the accepted DATA and the counters measure exactly the rest |
| Streams.GuardsNeverRefuse | internal/session/session.go:939-967 | A live stream's own loop is never refused by the guards |
| Streams.DrainedMeansDelivered | internal/session/session.go:939-954 | No bytes pending means every accepted byte is written |
| Loops.EveryBackendIsFaithful | internal/session/session.go:908-1018 | In every run of a session and its backends' loops, ids reused or not: each socket gets a prefix of the DATA of its own stream, and what is queued for the client as a stream's is a prefix of what its own backend sent, as long as no id is opened again while an earlier backend of it can still write or read |
| Loops.ReopeningIsHarmlessIff | internal/session/session.go:832-853 | Whatever follows an OPEN of a used id: every socket gets a prefix of its own stream's bytes and the client, from the OPEN on, of its own backend's, if and only if no earlier backend of the id can still write or read and no DATA of the id is queued or unacknowledged |
| Loops.RememberedIsNotReused | internal/session/session.go:741-744 | While every id a backend can still touch is live or remembered no batch reopens one; only an evicted tombstone lets it |
| Witness.ReusedIdLosesBytes | internal/session/session.go:908-967 | A whole run: an id's tombstone is evicted, the id reopened while its old loop runs, and the new stream's first byte never reaches its socket |
| Witness.ReusedIdMixesStreams | internal/session/session.go:1006-1018 | A whole run: with the old write loop returned and the old connection closed, the old read loop's byte in hand is queued as the new stream's DATA |
| Tombstones.TombstoneRing.RememberClosed | internal/session/session.go:1331-1347 | The ring is a first-in first-out list of the newest closed ids |
| Tombstones.RememberIsNewest | internal/session/session.go:1331-1347 | Remembering a duplicate-free history keeps exactly its newest ids |
| Tombstones.RememberKeeps | internal/session/session.go:1331-1347 | What is remembered after a closure: the id itself and all but the evicted one |
| Session.PendingPool.ChangePendingBudget | internal/session/manager.go:469-506 | Admits exactly what the class limit allows, counts it, and is negative only where it would panic |
| Session.Session.ReservePending | internal/session/session.go:1246-1265 | Charges session and pool together, or neither |
| Session.Session.ReleasePending | internal/session/session.go:1385-1399 | Returns a charge to both counts, or reaches the panic untouched |
| Session.Session.RememberClosed | internal/session/session.go:1331-1347 | The ring's step, with the evicted id's lane released and removed |
| Session.Session.QueueFrame | internal/session/session.go:1035-1158 | A frame merged, extended or appended with its charge, or refused with nothing changed |
| Session.Session.ApplyBatch | internal/session/session.go:814-884 | The loop is the fold of single frames, whole, stopped by a full control queue, or at a missing stream |
| Session.Session.Receive | internal/session/session.go:297-317 | Validate, reserve, apply, release, commit, with every early exit |
| Session.Session.UpBegin | internal/session/session.go:253-281 | The sequence and digest checks of the first lock region; turned away untouched in lane modes |
| Session.Session.UpFinish | internal/session/session.go:283-317 | The second lock region; a session in order stays so unless it crashes |
| Session.Session.UpLane | internal/session/session.go:337-428 | ProcessUpLane with lane creation and late frames, turned away untouched outside lane modes or past the largest id; a session in order stays so |
| Session.Session.PollEnter | internal/session/session.go:558-646 | Replay, refusal, acknowledgement with release, take-over, and the first turn of the loop |
| Session.Session.PollWake | internal/session/session.go:647-691 | Every way a parked poll wakes |
| Session.Session.NextWrite | internal/session/session.go:908-937 | Pops exactly the first buffered chunk |
| Session.Session.BackendDrained | internal/session/session.go:939-954 | Returns drained bytes to budget and window and queues the WINDOW |
| Session.Session.BackendWriteFinished | internal/session/session.go:956-967 | Returns one item and its fixed cost |
| Session.Session.NextReadAllowance | internal/session/session.go:969-1004 | The largest read whose DATA, in a frame of its own, fits credit, chunk size and downlink budget |
| Session.Session.BackendData | internal/session/session.go:1006-1018 | Spends credit, then queues the bytes or fails |
| Session.Session.BackendClosed | internal/session/session.go:1020-1033 | Only the owning backend closes its stream; no room for CLOSE closes the session |
| Session.Session.Close | internal/session/session.go:1415-1451 | Empties every lane and stream and returns all pending charges at once |
| Session.Session.AcquireWebSocketLane | internal/session/session.go:192-218 | One socket per lane, none for remembered ids, lanes bounded |
| Session.Session.ReleaseWebSocketLane | internal/session/session.go:220-246 | Closes the lane's stream, remembers it, returns the lane's charge |
| Session.ValidateFrames | internal/session/session.go:720-785 | The validation loop on its own tables agrees with the frame-by-frame definition |
| Session.ReservationTotals | internal/session/session.go:787-812 | The reservation loop sums the shares of DATA for streams live at that point |
| Session.LaneTotals | internal/session/session.go:1357-1366 | The loop over a lane's frames computes all it is charged |
| Session.AllowanceMeaning | internal/session/session.go:1231-1244 | DATA up to the allowance is within credit and the session's downlink limits wherever the queue puts it |
| Frames.ParseAll | internal/frame/frame.go:57-89 | The parsing loop accepts exactly the batches of the specification and its result re-encodes to the input |
| Frames.ParseInvertsEncode | internal/frame/frame.go:57-89 | Parsing inverts encoding for 1 to 4096 frames within the limit |
| Frames.ParseIsCanonical | internal/frame/frame.go:57-89 | An accepted body is exactly the encoding of the frames returned |
| Frames.RejectionNamesFirstFault | internal/frame/frame.go:57-89 | Every rejection is whole frames followed by bytes with the fault it names |
| Frames.EncodedPrefixIsFramePrefix | internal/frame/frame.go:43-55 | Frame boundaries are unambiguous in any byte prefix |
| Frames.Encode | internal/frame/frame.go:43-55 | The buffer holds type, 24-bit id, 32-bit length and payload |
| Frames.WindowRoundTrip | internal/frame/frame.go:106-121 | WINDOW amounts round-trip, and only zero is refused |
| Frames.HelloIsOneBytestring | internal/frame/frame.go:91-104 | HELLO has a single spelling on the wire |
| Frames.ShapedIffSayable | internal/frame/frame.go:123-148 | The shape check lets through exactly five kinds of message: OPEN, nonempty DATA, a WINDOW of a positive amount, CLOSE, and a PONG of at most 64 bytes; each frame says one |
| BridgeFrames.SplitFrames | internal/bridge/page.go:114-125 | The bridge accepts exactly what the relay's parser accepts minus empty DATA, cut the same way |
| BridgeFrames.PiecesRejoin | internal/bridge/page.go:114-125 | The pieces put end to end are the message again |
| Packer.FrameBound | internal/bridge/page.go:126-136 | The longest whole-frame prefix within both bounds, at least one frame; an error exactly on broken framing it meets |
| Packer.Choose | internal/bridge/page.go:137-159 | The cut is a whole-frame body within both bounds, or one frame, and the next whole item would have made it none |
| Packer.Outbox.QueueUp | internal/bridge/page.go:103-109 | Accepts exactly within both queue limits and appends the bytes |
| Packer.Outbox.JoinPending | internal/bridge/page.go:137-159 | Emitted bodies and pending items spell out the accepted bytes; the ledger counts pending and in-flight, also when an item is split; what is left begins with bytes that would not have fit |
| Packer.Outbox.Release | internal/bridge/page.go:110-113 | An acknowledged batch leaves the ledger exactly |
| Packer.RelayParsesPackedBody | internal/bridge/page.go:137-159 | The relay parses a packed body into the frames packed |
| Rates.AllowedIffEveryWindowHasRoom | internal/session/manager.go:579-601 | A bucket allows a call exactly when every window ending with it stays within burst plus rate times elapsed, for times in any order |
| Rates.WindowBound | internal/session/manager.go:579-601 | Admissions in any window are at most burst plus rate times elapsed |
| Rates.Bucket.Allow | internal/session/manager.go:542-550 | Under one quota a call is allowed exactly when every window of calls ending with it stays within burst plus rate times elapsed |
| PairedRates.PairedWindowBound | internal/session/manager.go:552-577 | Between committed admissions both buckets keep their bound even with timestamps out of order |
| PairedRates.DenialMayDiscardRefill | internal/session/manager.go:552-577 | With times in order, discarding a denied call's refill decides every call as storing it would |
| PairedRates.PairedAllowedIff | internal/session/manager.go:552-577 | With times in order, a call passes exactly when every window of both its buckets has room for it |
| PairedRates.PairedBucket.Allow | internal/session/manager.go:552-577 | A denied call changes neither bucket; with times in order a call is allowed exactly when every window of both buckets has room |
| Accounting.CountersMatchTasks | internal/session/manager.go:405-467 | Over every interleaving the four counters equal the backend goroutines they count, stay within their caps, and neither panic is reached |
| Accounting.QuietMeansZero | internal/session/manager.go:436-467 | With no backend left every counter is zero and both tables are empty |
| Accounting.OpensStartIff | internal/session/manager.go:405-434 | In every run an open starts a backend if and only if there was no Shutdown, the backends, those dialing, the profile's and the profile's dialing are below their caps, and both buckets allow it, that is, with times in order, every window of both has room |
| Accounting.StreamCounters.AcquireStream | internal/session/manager.go:405-434 | Capacity first, then both rate buckets, then all four counters |
| Accounting.StreamCounters.BackendDialFinished | internal/session/manager.go:436-453 | One dial fewer, its entry gone at zero, or the panic |
| Accounting.StreamCounters.StreamFinished | internal/session/manager.go:455-467 | One stream fewer, its entry gone at zero, or the panic |
| Bootstraps.Tables.IssueBootstrap | internal/session/manager.go:143-183 | Expired entries go first; issues exactly when address, rate and pool allow, evicting only an oldest unused entry of a full pool; the per-address counts stay exact |
| Bootstraps.Tables.Create | internal/session/manager.go:185-273 | A bootstrap makes at most one session; an identical retry gets it, a different one is refused; every error case |
| Bootstraps.Tables.SessionFinished | internal/session/manager.go:368-403 | Exactly the session and the bootstraps naming it go; its token is remembered with its expiry, a full pool giving up one that none expires before and no other; every count stays exact |
| Bootstraps.Tables.EvictOldestUnused | internal/session/manager.go:525-540 | Removes an unused entry no other unused one expires before, or nothing |
| Bootstraps.Tables.RemoveExpired | internal/session/manager.go:631-642 | Exactly the expired entries go from both tables |
| Bootstraps.WithoutOldest | internal/session/manager.go:373-381 | Drops a closed token none expires before |
| Bootstraps.Unexpired | internal/session/manager.go:637-641 | Keeps exactly the closed tokens not yet expired |

## Left out

- Cryptography: digests are taken as injective (a body stands for its digest) and drawn tokens as fresh.
- 64-bit wrap-around of sequence numbers and cursors: they are unbounded here.
- Floating-point rounding in takeRate: tokens and times are real numbers.
- HTTP and WebSocket handlers, headers, status codes, request deadlines and backoff: the two protocols see only requests and answers.
- Real sockets, dialing, contexts, timers and the cleanup ticker: nondeterministic events.
- Metrics counters, lastActivity and SetUpActiveForTest: no property depends on them.
- Configuration loading: only the numeric inequalities of config.validate are kept, as preconditions.
- In-place update of streamState and carrierLane objects: they are records in the session's maps; a backend or lane is told from a later one under the same id by a number in place of its pointer.
- carrierLane's buffer queue and index map inside Session: Session keeps a lane's queue as frames, and DownQueue proves the buffers and index refine that; unackedCost and unackedItems are the charge of the unacknowledged frames.
- WebSocket lanes have no end-to-end run of their own: a socket delivers in order, and ProcessUpLane, PollLane and the session-wide theorems are the same.
- A poll parked on a lane that was evicted meanwhile touches no session state, so only its answer is missing here.
- The bridge's second ledger per lane and its own closedLanes list: the same arithmetic again, per lane.
- RelayWorld.BackendGetsPrefixOfApp: asks that the app use each stream id once, since it names a stream's bytes by its id; Loops.EveryBackendIsFaithful has the session and its backends without that.
- Loops.EveryBackendIsFaithful: one carrier without lanes; it speaks of what is queued for the client from a stream's OPEN on, so DATA of an earlier stream still on its way is in ReopeningIsHarmlessIff only.
- Loops.ReopeningIsHarmlessIff: is about bytes; a WINDOW or CLOSE frame of an earlier stream still on its way reaches the client under the id all the same. A socket write and its report are one step, and so are a read loop's question for an allowance and its read.
- WorldRuns.LiveBufferIsBounded: sessions without lanes; Accounts.ItemsFollowBytes has every carrier mode, with what a write loop has in hand kept apart.
- Exchanges.RepeatIsAcknowledgedIff: of runs in which no apply has met a missing stream, as the other laws over whole runs of a session without lanes; Accounts' laws need not ask that.
- Session methods for AcquireWebSocket and laneProtocolFailure: one flag, and one of two calls that are there; their steps are in SessionSteps.
- DataShare.ControlIsNeverRefused: takes the control total as given; Reserves.FewOpensNeverRefuseControl says which runs keep it.
- LaneWorld.LaneBackendGetsPrefixOfApp: the bridge's own refusal of a closed lane's frames is not needed and not modelled.
- SessionSteps.StructureIsKept: bounds no number of lanes, because HTTPS lane mode has no bound (Witness.LanesGrow).
- Streams.WritesAreFaithful: a socket write and the report of it are one step, so written lags the socket by at most the bytes of one call; those bytes are in the prefix it states too.
- Session.Session.ReleasePending: a reached panic is recorded in a flag and the step ends, where the source unwinds; BudgetIsConserved proves it is never reached.
- Bootstraps.Tables.SessionFinished: the source finds the session by scanning for its pointer; here it is given by its token.
- HasBootstrap, Get, CloseToken, MatchCapability, Metrics and Capacity: lookups only.
