# Verified model of the Sailwind Online server and its pure components

The server of Sailwind Online is a fixed-tick loop: it polls a bounded UDP host, handles the whole batch of
events, and then does budgeted work for area-of-interest delivery, snapshots, fanout and persistence. The code
relies on invariants over whole runs. This project states those invariants and proves them for every run.

`dafny verify dfyconfig.toml` checks everything.

## How it is laid out

Each component is a specification (the state as a value, every operation as a function on it, and the laws about
it) and, where the source updates fields in place or loops, a class or method proved equal to that specification.

- Transport (`server/crates/sw-net`): `Transport` is the slot allocator, watermarks and poll; `TransportHost`
  the object; `TransportSafety` says that peer ids never alias within a batch, `TransportFences` that reconnects
  are ordered and watermarks expire in order, `TransportFairness` that every poll is bounded and starves no slot,
  `TransportOutcomes` what becomes of each packet, `TransportWatermarks` what fences an address over whole runs,
  `TransportHearing` what every step makes of every peer, who times out and what a pong measures.
  Time is a natural number, a datagram is already parsed and the socket is a queue. Every accepted connection
  carries an identity the source does not have, which is what the theorems about reused ids are stated with.
- Session server (`server/crates/sw-server/src/server.rs`): `Server` is the specification, `ServerObject` the
  object. `ServerInvariants` states the invariants, `ServerRuns` proves that every operation and every run keeps
  them, `ServerEffects` says what each message achieves, `ServerFrames` what each leaves alone; `ServerAdmission`
  (who may join when), `ServerLaws`, `ServerSnapshots`, `ServerDelivery`, `ServerHydration`, `ServerTurns` and
  `ServerFlush` draw the consequences over runs.
- Both together: `Ownership` runs the loop over host and server and proves who owns a session; `LoopRuns` shows that
  the loop is a run of each, so that the results about their runs hold of it.
- The schedulers inside a tick: `Recurrence` and `Snapshots` (snapshot recurrence), `Aoi`, `AoiCompletion` and
  `AoiSession` (publication and hydration of one session), `Fanout`, `FanoutExactness` and `FanoutQueues`, `DirtyFlush`.
- Components: `World`, `RateLimit`, `Economy`, `Market`, `ClientSync`, `CanonicalJson`, `CanonicalReading`, with
  `OrderedSets`, `Wire`, `Numbers` and `Options` underneath.

The clock, the socket's contents, whether the database answers, and which writes it refuses are inputs of the
operations, and the invariants, safety and completeness results hold for all of them. Only the results that
something finishes (`Aoi.DeliveryCompletes`, `ServerDelivery.EveryoneSettles`, `ServerHydration.StandingStillDelivers`,
`ServerFlush.QueueDrains`, `ServerFlush.MarkedAreWritten`) assume that the
database answers.

## Where the code and what is said about it differ

- The closed formula for snapshot recurrence is documented as the worst case
  (server/crates/sw-server/src/config.rs:68-77). It is exact when the peer count is at most 32 or a multiple of 32,
  and too small at some cadence for every other count (`Recurrence.FormulaSoundIff`). Start-up checks it at the
  configured ceiling only, and the formula is not monotone, so an accepted configuration can starve a smaller crowd:
  `Recurrence.AcceptedStarvesIff` says exactly when, `Recurrence.AcceptedConfigurationCanStarve` and
  `Snapshots.StarvingHappens` that it happens.
- A shutdown flush that succeeds at its third attempt still reports an error, for zero players
  (`DirtyFlush.FalseAlarm`, with the exact condition in `DirtyFlush.ShutdownReportIsExactIff`).
- The interpolator's last fallback is said to cover non-monotonic timestamps. No timestamps reach it
  (`ClientSync.BracketExists`).
- Six more branches are unreachable: refreshing an existing watermark (`TransportFences.RefreshBranchIsDead`),
  flipping the fanout preference without taking a job (`FanoutQueues.Queues.ProcessFanoutWork`), the audience
  entry ceiling refusing a capture (`Fanout.CaptureIsFresh`), the chat byte ceiling refusing a line that the item
  ceiling admits (`ServerEffects.ChatIsQueued`), the reconnect limiter refusing to record a new player
  (`ServerAdmission.NewcomerIsRecorded`), and discarding a stale active cell (`Aoi.ActiveIsNeverStale`). So are the registration, generation and identity-index errors of a hello
  (`ServerInvariants.RegisterCore`, `ServerInvariants.AllocateCore`, `ServerInvariants.AdmitAgrees`).
- The ledger and the market deduplicate by id alone, so an id already spent on something else is acknowledged as
  accepted and not applied (`Economy.SharedIdIsNotApplied`, `Market.SharedTradeIdIsNotApplied`). When accepted does
  mean applied is stated exactly by `Economy.AcceptedIsAppliedIff` and `Market.AcceptedIsAppliedIff`.
- Canonical output depends on the order of members that agree in all four sort keys and differ in `Static`
  (`CanonicalJson.OrderIndependentIff`).

## Model

| member | source | states |
|---|---|---|
| `Ownership.SessionsStayWithTheirConnection` | server/crates/sw-server/src/server.rs:307-372 | Over every run of poll, full batch handling and tick work: at each poll boundary every session's peer id is live and held by the very connection that authenticated the session, and in the next batch, mid-batch evictions included, no event finds or leaves at its id the session of another connection than the one that sent it, so a hello seats only its own sender |
| `LoopRuns.LoopIsRuns` | server/crates/sw-server/src/server.rs:307-423 | Every run of the loop is, for the server, a run of the operations its events ask for, in order, and then of its tick work, and for the host a run of its polls, each followed by the disconnects its batch led to; so every result about runs of either holds of the loop |
| `LoopRuns.EveryFrameTicks` | server/crates/sw-server/src/server.rs:326-353 | Over every run of the loop, delivery, snapshots, fanout with its budgets and the flush are each done once a frame, the clock and the cadence whenever due, and by nothing else |
| `Ownership.FrameOwned` | server/crates/sw-server/src/server.rs:328-353 | One frame of the loop keeps the host's and the server's invariants and the ownership boundary |
| `Ownership.BatchOwned` | server/crates/sw-server/src/server.rs:363-372 | Handling a whole batch, mid-batch evictions included: before and after each event the session at its id, if any, is that of the connection that sent it, and no session is left without a live owner |
| `Ownership.EventBatch` | server/crates/sw-server/src/server.rs:363-423 | One event keeps each session either live under its own connection or announced as departing later in the same batch |
| `Ownership.HelloBatch` | server/crates/sw-server/src/server.rs:512-609 | A hello binds the session to the connection holding the slot now, and a superseded peer is disconnected without disturbing any other session's owner |
| `Ownership.OwnedSeat` | server/crates/sw-server/src/server.rs:555-568 | Evicting the superseded transport peer while seating a player leaves every remaining session with its owner |
| `Ownership.PollOpensBatch` | server/crates/sw-net/src/lib.rs:238-259 | When a poll returns, each session is live under its own connection or its departure is among the reported events |
| `Ownership.StartOk` | server/crates/sw-server/src/server.rs:221-304 | The state the server starts in satisfies every hypothesis of the ownership theorem |
| `Transport.RunValid` | server/crates/sw-net/src/lib.rs:151-713 | Over every run of polls, local disconnects and shutdown: slots split exactly into live and free without duplicates, id is slot plus one, each per-IP counter is the number of live peers there and never zero, both ceilings hold, watermarks are backed by a bounded queue and disjoint from live addresses |
| `Transport.HandleConnectValid` | server/crates/sw-net/src/lib.rs:343-440 | Replacement, watermark check, ceilings and admission keep the whole allocator invariant |
| `Transport.InsertValid` | server/crates/sw-net/src/lib.rs:509-531 | Allocating a slot and inserting the peer keeps the partition, the counters and the connection identities |
| `Transport.RemoveValid` | server/crates/sw-net/src/lib.rs:533-551 | Removing a peer frees exactly its slot, drops its counter and keeps the partition |
| `Transport.RecordMarkOk` | server/crates/sw-net/src/lib.rs:442-488 | Recording a watermark, with generation overflow and eviction of the oldest, keeps queue and map in step and bounded |
| `Transport.ExpireValid` | server/crates/sw-net/src/lib.rs:490-507 | Watermark cleanup keeps the host invariant |
| `Transport.DrainValid` | server/crates/sw-net/src/lib.rs:261-299 | Every datagram sequence keeps the host invariant |
| `Transport.MaintainValid` | server/crates/sw-net/src/lib.rs:597-651 | Round-robin maintenance keeps the host invariant |
| `Transport.PollValid` | server/crates/sw-net/src/lib.rs:238-259 | A poll keeps the host invariant whatever the socket holds |
| `Transport.LocalDisconnectValid` | server/crates/sw-net/src/lib.rs:677-692 | A local disconnect keeps the host invariant |
| `Transport.ShutDownValid` | server/crates/sw-net/src/lib.rs:694-713 | Shutdown leaves an empty valid host |
| `Transport.MarksFitOrder` | server/crates/sw-net/src/lib.rs:442-507 | There are never more watermarks than queue entries, so both stay within the peer ceiling |
| `TransportSafety.BatchNonAliasing` | server/crates/sw-net/src/lib.rs:207-214 | Within a batch a peer id denotes one connection, and until the next poll, under any local disconnects, looking it up yields that connection's address or nothing |
| `TransportSafety.PollEpochal` | server/crates/sw-net/src/lib.rs:242-259 | A poll only extends the id-to-connection map, covers everything live or reported by it, and announces every connection that left |
| `TransportSafety.AllocatedUnused` | server/crates/sw-net/src/lib.rs:520-531 | The allocatable prefix of the free queue holds only slots that were free when the poll began, so a slot handed out was not used before in the batch |
| `TransportSafety.ConnectEpochal` | server/crates/sw-net/src/lib.rs:343-440 | A connect request reports its replacement as a departure and gives the newcomer an id unused in this epoch |
| `TransportSafety.RemoveEpochal` | server/crates/sw-net/src/lib.rs:533-551 | A removed peer's departure is announced with its own id and connection |
| `TransportSafety.DisconnectEpoch` | server/crates/sw-net/src/lib.rs:677-692 | A local disconnect between polls lets no id change its connection |
| `TransportFences.PollSteps` | server/crates/sw-net/src/lib.rs:238-259 | A poll leaves the host and reports the events, in order, of its own steps: its cleanups, the datagrams of its own queue and its scans, all at its own time |
| `TransportWatermarks.ReconnectsAreNotOlder` | server/crates/sw-net/src/lib.rs:366-440 | Over every run of polls and local disconnects: whenever a poll reports a connection at an address that was live or watermarked at some connect time, the accepted request is no older than that, unless in between, at one of the run's own steps, the live peer left, the watermark expired or it was displaced |
| `TransportWatermarks.FenceComesDownIff` | server/crates/sw-net/src/lib.rs:366-507 | An address stops being fenced at a step if and only if its live peer leaves unreplaced, its watermark stands first and has expired, or another is recorded while it is the oldest in a full queue or the generation counter starts over |
| `TransportWatermarks.FenceHolds` | server/crates/sw-net/src/lib.rs:366-440 | Over every run of steps the fence of an address stands no lower than it stood, or some step took it down |
| `TransportWatermarks.RoundsTrace` | server/crates/sw-net/src/lib.rs:238-259 | Every run of polls and local disconnects leaves the host and reports the events, in order, of its own steps: each poll's own followed by its local disconnects, as ordered in time as the polls are |
| `TransportFences.RefreshBranchIsDead` | server/crates/sw-net/src/lib.rs:466-473 | The branch that refreshes an existing watermark is never reached |
| `TransportWatermarks.WatermarksStayOrdered` | server/crates/sw-net/src/lib.rs:442-488 | From the empty host, over every run of polls at nondecreasing times with any local disconnects, the watermark queue is ordered by expiry |
| `TransportWatermarks.OpeningLeavesNoneExpired` | server/crates/sw-net/src/lib.rs:490-507 | After every such run the next poll opens with no expired watermark left, unless it spent its whole cleanup budget |
| `TransportFences.CleanupIsComplete` | server/crates/sw-net/src/lib.rs:490-507 | Given that order, the early exit leaves nothing expired unless the whole cleanup budget was spent |
| `TransportFairness.PollBounds` | server/crates/sw-net/src/lib.rs:261-299 | A poll consumes a prefix of at most 128 datagrams and 262144 bytes, and reports at most two events each plus 64 timeouts |
| `TransportFairness.DrainBounds` | server/crates/sw-net/src/lib.rs:261-299 | Byte, datagram and event accounting of every partial drain |
| `TransportFairness.MaintainBounds` | server/crates/sw-net/src/lib.rs:597-651 | Timeouts and keepalives stay within their budgets and each timeout reports one event |
| `TransportFairness.EverySlotIsScanned` | server/crates/sw-net/src/lib.rs:597-651 | With an unchanged slot count, enough consecutive polls scan every slot, under any interleaved traffic and local disconnects |
| `TransportFairness.ExpiredPeersLeave` | server/crates/sw-net/src/lib.rs:597-651 | Over ceil(S/512) polls some poll scans a given slot, and a peer then expired is reported gone or that poll spent its timeout budget |
| `TransportHost.Host.BindWithLimits` | server/crates/sw-net/src/lib.rs:163-200 | Binding succeeds exactly for the admitted ceilings and gives the empty host |
| `TransportHost.Host.LookUp` | server/crates/sw-net/src/lib.rs:207-214 | Address of a live peer id, nothing for stale or foreign ids |
| `TransportHost.Host.HandleConnectRequest` | server/crates/sw-net/src/lib.rs:343-440 | In-place connect handling equals the specification and keeps the invariant |
| `TransportHost.Host.RecordReconnectWatermark` | server/crates/sw-net/src/lib.rs:442-488 | In-place recorder equals the specification |
| `TransportHost.Host.ExpireReconnectWatermarks` | server/crates/sw-net/src/lib.rs:490-507 | Cleanup loop equals the specification |
| `TransportHost.Host.AllocatePeerSlot` | server/crates/sw-net/src/lib.rs:520-531 | Grow first, then reuse only the prefix that was free when the poll began |
| `TransportHost.Host.RemovePeer` | server/crates/sw-net/src/lib.rs:533-551 | In-place removal equals the specification |
| `TransportHost.Host.HandleDatagram` | server/crates/sw-net/src/lib.rs:301-341 | Dispatch by packet kind and connection number equals the specification |
| `TransportHost.Host.DrainSocket` | server/crates/sw-net/src/lib.rs:261-299 | The receive loop equals the specification, the rest staying on the socket |
| `TransportHost.Host.ProcessPeerMaintenance` | server/crates/sw-net/src/lib.rs:597-651 | The maintenance loop equals the specification |
| `TransportHost.Host.Pump` | server/crates/sw-net/src/lib.rs:242-259 | The whole poll in place equals the specification and keeps the invariant |
| `TransportHost.Host.DisconnectPeer` | server/crates/sw-net/src/lib.rs:677-692 | Local disconnect, true exactly for a live id |
| `TransportHost.Host.Close` | server/crates/sw-net/src/lib.rs:694-713 | Shutdown reports each live peer and empties the host |
| `TransportOutcomes.ConnectOutcome` | server/crates/sw-net/src/lib.rs:343-440 | A request gets a peer of its own, newborn and in a new slot while the table may grow and then the longest-free one, if and only if it outdates the live peer, or respects the watermark and both ceilings, and a slot is left; exactly the outdated peer and the newcomer are reported; an outdated peer that finds no slot leaves its address fenced at the new time for one timeout, a request that comes to nothing raises the watermark it passed, and nobody else is touched |
| `TransportOutcomes.RetiredNumberIsIgnored` | server/crates/sw-net/src/lib.rs:316-341 | A packet under a retired connection number, or from nobody, changes nothing and reports nothing |
| `TransportOutcomes.PayloadIsReported` | server/crates/sw-net/src/lib.rs:316-341 | A payload under the current number is reported once, as it came, under its sender's id and connection, and refreshes only its sender |
| `TransportOutcomes.OnlyExpiredTimeOut` | server/crates/sw-net/src/lib.rs:597-651 | Everyone a poll times out had been silent for longer than the timeout |
| `TransportHearing.StepPeer` | server/crates/sw-net/src/lib.rs:553-651 | Every step of the host makes of every peer exactly what it should: a payload, a well-formed ping or pong under the current number refreshes it, the matching pong settles its ping, a due scan pings it, a departure or an outdating request without a slot ends it, an accepted request makes it anew, and any other step leaves it as it was |
| `TransportHearing.StepReports` | server/crates/sw-net/src/lib.rs:301-341 | Every step reports exactly who left and why, who connected and what payload was said: a packet only about its sender, a scan only about the peer it scans, any other step nothing |
| `TransportHearing.TimesOutIffSilent` | server/crates/sw-net/src/lib.rs:617-631 | Over every run of polls and local disconnects: a step reports a timeout at an address if and only if it scans the live peer there within its budget and more than the timeout has passed since that peer was last heard from or connected |
| `TransportHearing.HeardPeersStay` | server/crates/sw-net/src/lib.rs:553-576 | Over every run of polls at nondecreasing times: once a step hears from an address by payload, ping or pong, no scan within the timeout after it reports a timeout there |
| `TransportHearing.PongMeasuresPing` | server/crates/sw-net/src/lib.rs:564-576 | After a scan that pings a peer and any steps that neither ping it again, answer that ping nor end the connection, the pong with the ping's number, and no other packet, sets the round trip to the time between the two and settles the ping |
| `ServerRuns.RunInv` | server/crates/sw-server/src/server.rs:218-1710 | Over every run of hellos, movement, chat, departures, ticks, cadences and shutdown, in any order and with any failures: all index, placement, wakeup, generation, fanout, identity, dirty-mark and limiter invariants hold |
| `ServerRuns.StepInv` | server/crates/sw-server/src/server.rs:363-423 | Every single operation keeps every invariant |
| `ServerRuns.HelloInv` | server/crates/sw-server/src/server.rs:430-620 | Every hello keeps every invariant; its peer ends up with a session if and only if it had one or, judged by the recorded times, the throttle of its peer and the limits by source, by player and by process have run out, and validation, database and capacity grant it; and then exactly one player is seated, at the origin and marked for saving, its previous peer evicted, everybody else as before |
| `ServerInvariants.PassLimitsIff` | server/crates/sw-server/src/server.rs:519-534 | The admission limits admit if and only if, by the recorded times, the source is not recent and, for a known player, the player is not, or, for an unknown one, the process-wide interval has passed; and exactly the limiters that admitted are charged, at this time |
| `ServerAdmission.HelloCharges` | server/crates/sw-server/src/server.rs:512-579 | What a hello leaves besides sessions: nothing within its peer's interval; otherwise its peer charged, the admission limits that admit it charged whether or not it is granted a session, an evicted peer's throttle dropped, and only a granted hello touches the player table, giving a new identity the next row |
| `ServerAdmission.JoinsAreSpaced` | server/crates/sw-server/src/server.rs:519-564 | Over every run of the server with hellos in the order of their times: two joins from one source are the source interval apart, two of one player the hello interval, two of players not seen before the process-wide interval, through departures, evictions, refusals and database failures |
| `ServerAdmission.NewcomerIsRecorded` | server/crates/sw-server/src/server.rs:250-255 | The reconnect limiter is sized so that it always has room to record a new player's first join; its key budget never refuses one |
| `ServerAdmission.StartsWithRoom` | server/crates/sw-server/src/server.rs:250-255 | The server starts with that room |
| `ServerRuns.MovedInv` | server/crates/sw-server/src/server.rs:677-701 | A movement keeps world cell, session cell and subscription block equal and wakes the session whenever that gives it work |
| `ServerRuns.ClientStateInv` | server/crates/sw-server/src/server.rs:654-702 | A client state keeps every invariant and no session changes hands |
| `ServerRuns.ChatInv` | server/crates/sw-server/src/server.rs:917-967 | Queueing a chat line keeps every invariant |
| `ServerRuns.DisconnectInv` | server/crates/sw-server/src/server.rs:969-992 | A departure removes exactly that session and keeps every invariant, whether or not its last write fails |
| `ServerRuns.AoiTickInv` | server/crates/sw-server/src/server.rs:1217-1245 | A delivery tick keeps every invariant: no session with work left is ever unscheduled |
| `ServerRuns.SnapTickInv` | server/crates/sw-server/src/server.rs:1099-1198 | A snapshot tick keeps every invariant |
| `ServerRuns.FanTickInv` | server/crates/sw-server/src/server.rs:1545-1607 | A fanout tick keeps every invariant, the delivery log included |
| `ServerRuns.ClockInv` | server/crates/sw-server/src/server.rs:1484-1500 | Replacing the pending clock keeps every invariant |
| `ServerRuns.TickInv` | server/crates/sw-server/src/server.rs:333-346 | All tick work leaves who holds which session unchanged |
| `ServerInvariants.RegisterCore` | server/crates/sw-server/src/server.rs:994-1016 | Registration of a fit session cannot fail, enters every index, and changes other sessions at most by re-keying |
| `ServerInvariants.UnregisterCore` | server/crates/sw-server/src/server.rs:1023-1037 | Dropping a session keeps every invariant of the rest and frees its player |
| `ServerInvariants.RekeyCore` | server/crates/sw-server/src/server.rs:1050-1090 | Re-keying on overflow drops every queued job first and keeps every invariant |
| `ServerInvariants.RekeyedOk` | server/crates/sw-server/src/server.rs:1059-1082 | Re-keyed generations are distinct, from one to the number of sessions, and nothing else changes |
| `ServerInvariants.AllocateCore` | server/crates/sw-server/src/server.rs:1039-1048 | A generation can always be allocated: the exhaustion error is unreachable |
| `ServerInvariants.SeatCore` | server/crates/sw-server/src/server.rs:555-609 | Seating evicts, places and registers so that exactly one session of the player exists and every invariant holds |
| `ServerInvariants.AdmitAgrees` | server/crates/sw-server/src/server.rs:531-553 | The identity index and the player table cannot disagree, and the index is never full when a row was free: both error returns are unreachable |
| `ServerInvariants.FanoutJoin` | server/crates/sw-server/src/server.rs:994-1016 | A newcomer's generation is above every captured one, so no queued recipient can be mistaken for it |
| `ServerInvariants.CaptureOk` | server/crates/sw-server/src/server.rs:1502-1528 | Cached or not, the captured audience is exactly the live sessions |
| `ServerInvariants.BootInv` | server/crates/sw-server/src/server.rs:221-304 | The start-up state satisfies every invariant |
| `ServerLaws.SnapshotsAreSpatial` | server/crates/sw-server/src/server.rs:1135-1149 | In every reachable state the players elected for a session are the first fifteen, in circular id order after itself, of what a spatial query around its cell finds |
| `ServerLaws.SnapTickIsBroadcast` | server/crates/sw-server/src/server.rs:1099-1198 | A server tick is a tick of the snapshot scheduler in an unchanged scene, so the recurrence results apply to the server |
| `ServerSnapshots.SnapshotsRecur` | server/crates/sw-server/src/server.rs:1099-1198 | The recurrence over server operations, for a session whose selection stays full and the same at every snapshot tick, whatever messages and other work come in between and whoever moves where: a player just told to it is told again at exactly the computed snapshot tick and at none before, within chunks*(cadence+ceil(P/32)-1), and by the closed formula when P <= 32 or 32 divides P |
| `ServerSnapshots.CrowdIsSelected` | server/crates/sw-server/src/server.rs:1135-1149 | The same people, moving as they like but in view of each other at every snapshot tick, all have such a selection |
| `ServerSnapshots.SelectionSettles` | server/crates/sw-server/src/server.rs:1099-1198 | Wherever a session's sweep stands when its selection settles, within a bounded number of snapshot ticks it is at a point of the run from which the recurrence holds for the rest of it |
| `ServerSnapshots.SnapshotsSettle` | server/crates/sw-server/src/server.rs:1099-1198 | From every state reachable from start-up short of a tick wrap, whoever joined, left or moved before: once the same people stay and see each other at every snapshot tick, each session has a full selection that stays the same and is within a bounded number of snapshot ticks where the recurrence holds for the rest of the run |
| `ServerSnapshots.RunDated` | server/crates/sw-server/src/server.rs:1099-1198 | Over every run short of a tick wrap, no session's last visit is dated past the snapshot tick, which counts the snapshot ticks so far |
| `ServerSnapshots.RunIsTicks` | server/crates/sw-server/src/server.rs:307-353 | As long as nobody comes or goes, a run of any operations is to the scheduler exactly its snapshot ticks, each in the scene of its moment |
| `ServerDelivery.ClientsMirrorWhatIsPublished` | server/crates/sw-server/src/server.rs:1386-1425 | Over every run from start-up a client that applies its updates sees exactly its session's published cells, and once nothing is scheduled exactly its interest block |
| `ServerDelivery.EveryoneSettles` | server/crates/sw-server/src/server.rs:1217-1467 | In any run in which nobody comes, goes or leaves a cell and the database answers, with snapshots, fanout, clocks, flushes, chat and idle client states in between: as many delivery ticks as an explicit bound on the outstanding work leave every session with its whole block published and nothing queued |
| `ServerDelivery.CellsAreHydrated` | server/crates/sw-server/src/server.rs:1260-1384 | For a session with no cell under way and any server run in which it stays and whose last work for it reports a cell done: some visit took that cell up, and if membership and rows did not change since, every player and every row was covered once in order, whatever moved and failed |
| `ServerHydration.EveryBlockIsDelivered` | server/crates/sw-server/src/server.rs:1217-1467 | Over every run from start-up: whoever is not scheduled for delivery at its end was given its session blank at some operation and has kept it, and every cell of its block was, in its own visits since, announced, never named again, taken up, covered in full if membership and rows were steady meanwhile, and reported done |
| `ServerHydration.StandingStillDelivers` | server/crates/sw-server/src/server.rs:1217-1467 | After any history from start-up, once nobody comes, goes or leaves a cell and the database answers, as many delivery ticks as the bound see every cell of everybody's block delivered in that sense |
| `ServerHydration.PagesShowTheWorld` | server/crates/sw-server/src/server.rs:1273-1289 | Of the players a visit examines it shows in a cell exactly those the world has there at that moment |
| `ServerTurns.EveryoneGetsATurn` | server/crates/sw-server/src/server.rs:1217-1245 | Over every run, whoever joins, leaves, moves and is rescheduled meanwhile: a scheduled session that stays is visited by one of any ceil(n/8) delivery ticks, n being the ceiling on peers |
| `ServerDelivery.DeliveryIsReactions` | server/crates/sw-server/src/server.rs:1217-1467 | Over every server run in which a session stays, its delivery state is what its own visits and movements make of it, whatever happens to the others |
| `ServerDelivery.VisitLightens` | server/crates/sw-server/src/server.rs:1247-1384 | Each visit strictly lowers the total outstanding work and leaves the other sessions' part alone |
| `ServerLaws.FanoutIsSound` | server/crates/sw-server/src/server.rs:1502-1607 | Over every run from start-up, joins, leaves, peer reuse and overflow re-keying included: every delivery was heard by the captured session, no job reached a peer twice, chats arrived in queue order, the cached audience is fresh and queued bytes are exact and bounded |
| `ServerLaws.FanTickReaches` | server/crates/sw-server/src/server.rs:1570-1600 | A tick sends each queued job to exactly those recipients it passed that are still the captured session, within the interest radius of the cell a chat was spoken in |
| `ServerLaws.RetainedStaysBounded` | server/crates/sw-server/src/server.rs:1502-1539 | Over every run from start-up shared audiences are told apart by their identity, and the captured recipients held in memory, counted once for each, stay within their ceiling |
| `ServerEffects.MovementTakesEffect` | server/crates/sw-server/src/server.rs:654-702 | A movement is taken up exactly when its sender is seated, unthrottled and finite; then session and world put the player in the cell whose square contains the clamped position, the interest block follows, the player is marked for saving and nobody else is touched; every client state heard counts against the throttle and nothing else does |
| `ServerEffects.ChatIsQueued` | server/crates/sw-server/src/server.rs:917-967 | A considered line that fits goes to the back of the queue once, for every session live at that moment, in the sender's cell; any other leaves the queue alone; every considered line counts against the sender's throttle, and nothing but queue and throttle changes |
| `ServerEffects.DepartureIsSettled` | server/crates/sw-server/src/server.rs:969-992 | The player leaves the world and loses its throttles; a successful last write leaves nothing of it to save, a refused one keeps it queued and pauses flushing; nobody else's marks or throttles change, and a peer without a session only loses its hello throttle |
| `ServerEffects.ClockIsQueued` | server/crates/sw-server/src/server.rs:1484-1500 | Exactly the new clock is pending afterwards, for every session live at that moment |
| `ServerObject.SessionServer.constructor` | server/crates/sw-server/src/server.rs:265-304 | The new server is the start-up state and satisfies the invariants |
| `ServerObject.SessionServer.OnHelloAt` | server/crates/sw-server/src/server.rs:430-620 | The in-place handler equals the specification, keeps the invariants and has the stated effect on sessions |
| `ServerObject.SessionServer.SeatPlayer` | server/crates/sw-server/src/server.rs:555-609 | Eviction, placement and registration in place equal the specification |
| `ServerObject.SessionServer.AdmitPlayer` | server/crates/sw-persist/src/lib.rs:208-259 | A known identity keeps its row and id; a new one is admitted exactly while there is room, under an id that no row has; otherwise nothing changes |
| `ServerObject.SessionServer.RegisterSession` | server/crates/sw-server/src/server.rs:994-1016 | In-place registration equals the specification, refusing exactly when it does |
| `ServerObject.SessionServer.UnregisterSession` | server/crates/sw-server/src/server.rs:1023-1037 | In-place removal from every index equals the specification |
| `ServerObject.SessionServer.AllocateSessionGeneration` | server/crates/sw-server/src/server.rs:1039-1048 | Counter step with re-keying on overflow equals the specification |
| `ServerObject.SessionServer.RekeyLiveSessionGenerations` | server/crates/sw-server/src/server.rs:1050-1083 | Re-keying in place equals the specification and refuses only above the peer ceiling |
| `ServerObject.SessionServer.Renumber` | server/crates/sw-server/src/server.rs:1058-1080 | The renumbering loop gives each peer its ascending rank plus one and changes nothing else |
| `ServerObject.SessionServer.MoveSession` | server/crates/sw-server/src/server.rs:677-701 | Movement in place equals the specification |
| `ServerObject.SessionServer.OnClientStateAt` | server/crates/sw-server/src/server.rs:654-702 | The in-place handler equals the specification and keeps the invariants |
| `ServerObject.SessionServer.OnChatAt` | server/crates/sw-server/src/server.rs:917-967 | The in-place handler equals the specification and keeps the invariants |
| `ServerObject.SessionServer.OnDisconnectAt` | server/crates/sw-server/src/server.rs:969-992 | The in-place handler equals the specification, keeps the invariants and reports exactly a refused last write |
| `ServerObject.SessionServer.ProcessAoiWork` | server/crates/sw-server/src/server.rs:1217-1245 | The delivery loop visits at most eight sessions, equals the specification and keeps the invariants |
| `ServerObject.SessionServer.BroadcastClock` | server/crates/sw-server/src/server.rs:1484-1500 | Clock replacement in place equals the specification |
| `Snapshots.ElectionIsSpatial` | server/crates/sw-server/src/server.rs:1135-1149 | The bounded candidate scan elects the first fifteen of the spatial query in circular order |
| `Snapshots.SchedulerRecurrence` | server/crates/sw-server/src/server.rs:1099-1198 | For a recipient whose selection stays the same and as full as its crowd of P allows, however everyone moves from tick to tick: an advertised player is advertised again exactly one sweep of due visits later and at no tick before, within chunks*(cadence+ceil(P/32)-1) ticks, and after exactly the closed formula when P <= 32 or 32 divides P |
| `Snapshots.TickIsLaneStep` | server/crates/sw-server/src/server.rs:1099-1198 | One tick of the real cursor scheduler is one step of the recipient's own clock, whatever the others see |
| `Snapshots.ElectSame` | server/crates/sw-server/src/server.rs:1135-1149 | People who all see each other elect the same wherever they stand, so moving about in view changes nobody's selection |
| `Snapshots.GapHappens` | server/crates/sw-server/src/server.rs:1099-1198 | Every gap of the arithmetic is a gap of the scheduler: in a crowd that starts afresh, the recipient on a given place hears of a player in the first tick and again exactly that many ticks later |
| `Snapshots.StarvingHappens` | server/crates/sw-server/src/config.rs:327-337 | Whenever a crowd's size and cadence starve, some recipient of a fresh crowd in one cell hears of a player it sees and then not for the whole expiry |
| `Snapshots.FirstTickServes` | server/crates/sw-server/src/server.rs:1099-1198 | A fresh recipient reached by a tick is served from the start of its sweep |
| `Snapshots.EveryRecipientSettles` | server/crates/sw-server/src/server.rs:1099-1198 | After any membership change, wherever it left the scheduler and the sweeps, a recipient whose selection then stays full and the same, however everyone moves, is soon at the point from which the recurrence is exact |
| `Snapshots.BroadcastAnchors` | server/crates/sw-server/src/server.rs:1099-1110 | Wherever the recipient cursor stood, even on a peer that has left, one tick puts it on a live recipient |
| `Snapshots.Scheduler.BroadcastSnapshots` | server/crates/sw-server/src/server.rs:1099-1198 | The recipient loop in place equals the specification |
| `Snapshots.Scheduler.Sweep` | server/crates/sw-server/src/server.rs:1158-1187 | The packet loop advertises the next stretch of the sweep and moves its cursor there |
| `Recurrence.AdvertisementRecurs` | server/crates/sw-server/src/server.rs:1118-1198 | Recurrence of one recipient, from any phase of a sweep |
| `Recurrence.EveryLaneAligns` | server/crates/sw-server/src/server.rs:1158-1187 | Whatever a membership change did to a recipient's cursor, within one sweep of due visits it stands between sweeps, where the recurrence holds |
| `Recurrence.EveryLaneSettles` | server/crates/sw-server/src/server.rs:1099-1198 | From any state whatever, a recipient has just been visited between two sweeps within four cadences and rounds |
| `Recurrence.EmptySelectionStartsOver` | server/crates/sw-server/src/server.rs:1150-1156 | A visit that finds nobody in view sends nothing, and the next sweep, over whoever comes into view, starts over |
| `Recurrence.SweepIsPartition` | server/crates/sw-server/src/server.rs:1158-1187 | Each sweep advertises every elected player in exactly one packet |
| `Snapshots.EveryRecipientGetsItsTurn` | server/crates/sw-server/src/server.rs:1765-1780 | Of any ceil(P/32) consecutive ticks of the scheduler, in whatever scenes, as long as the recipients stay: each recipient is considered in the one its place calls for and in none before it |
| `Recurrence.FormulaIsExact` | server/crates/sw-server/src/config.rs:62-94 | With P <= 32 or 32 dividing P the closed formula equals the real recurrence to the tick |
| `Recurrence.FormulaFails` | server/crates/sw-server/src/config.rs:62-94 | For every other P there is a cadence at which the real recurrence exceeds the formula |
| `Recurrence.FormulaSoundIff` | server/crates/sw-server/src/config.rs:62-94 | The formula bounds the recurrence at every cadence if and only if P <= 32 or 32 divides P |
| `Recurrence.AcceptedStarvesIff` | server/crates/sw-server/src/config.rs:327-337 | For every accepted configuration and every crowd up to its ceiling: some recipient goes as long as the clients' expiry without hearing of a visible player if and only if the lap arithmetic of that crowd's own size reaches the expiry, and for even rounds if and only if the formula put to that size does |
| `Recurrence.StarvesIff` | server/crates/sw-server/src/config.rs:62-94 | For every crowd and cadence: starving, over all recipients, is exactly an arithmetic test on the places of one window |
| `Recurrence.GapsInLaps` | server/crates/sw-server/src/server.rs:1765-1780 | The exact gap for every crowd above one window: whole laps of the circle, turned one window a tick |
| `Recurrence.AcceptedConfigurationCanStarve` | server/crates/sw-server/src/config.rs:327-337 | It happens: 224 peers at 7 ticks and one snapshot a second are accepted, and 192 peers starve |
| `Recurrence.GeneralBoundCoversEveryCrowd` | server/crates/sw-server/src/config.rs:327-337 | Checking the general bound at the ceiling would cover every smaller crowd |
| `Aoi.MirrorIsPublished` | server/crates/sw-server/src/server.rs:1386-1425 | Over every run of movements and visits, folding the emitted chunks gives exactly the published cells, and each chunk has at most 32 cells |
| `Aoi.VisitOk` | server/crates/sw-server/src/server.rs:1247-1384 | Pending and active cells stay disjoint and published, and a visit asks to be repeated exactly when work is left |
| `Aoi.VisitRankFalls` | server/crates/sw-server/src/server.rs:1247-1384 | Every visit to a session with work left lowers an explicit rank |
| `Aoi.DeliveryCompletes` | server/crates/sw-server/src/server.rs:1217-1467 | In an unchanging world a session is fully published and hydrated after at most its rank of visits |
| `Aoi.HydrationIsComplete` | server/crates/sw-server/src/server.rs:1260-1384 | With membership and mooring rows unchanged, but players moving, the subscription moving, publication cutting in and the database failing and being retried: when the cell is reported done, each remaining player was examined once in ascending order, exactly those in the cell at the visit that examined them were shown, and every remaining mooring row was walked once in ascending boat id |
| `Aoi.CellIsFullyHydrated` | server/crates/sw-persist/src/lib.rs:432-475 | From the visit that takes a cell up to the one that reports it done, under the same conditions: every live player and every mooring row of the cell exactly once, in order |
| `Aoi.EveryDoneCellIsComplete` | server/crates/sw-server/src/server.rs:1260-1384 | For every run of a session's delivery that ends by reporting a cell done, some visit of the run took that cell up, and between the two the hydration was complete if membership and rows did not change, exactly the rows whose name fits being sent |
| `Aoi.ActiveIsNeverStale` | server/crates/sw-server/src/server.rs:1433-1438 | Once publication has caught up the branch that discards a stale active cell is unreachable |
| `Aoi.ChunkIsBounded` | server/crates/sw-server/src/server.rs:1386-1425 | A chunk has at most 32 cells, removals first and then as many additions as still fit, and never names a cell twice or both ways |
| `Aoi.FirstCellsAreFirst` | server/crates/sw-server/src/server.rs:1393-1411 | The cells of a chunk come before, in row-major order, all that it leaves out |
| `Aoi.NextCellIff` | server/crates/sw-server/src/server.rs:1815-1830 | The next cell to hydrate is the one whose turn comes first, going round from the cursor in row-major order |
| `Aoi.ScanStep` | server/crates/sw-server/src/server.rs:1265-1324 | A page examines the next eight players in order, or as many as are left, and fewer only if five of them already fill the packet; exactly those standing in the cell are shown |
| `AoiCompletion.OwedIsOutstanding` | server/crates/sw-server/src/server.rs:1412-1425 | Over every run of movements and visits in any environment: the cells announced and neither withdrawn nor reported done since, reckoned from the emissions alone, are exactly those queued or under way |
| `AoiCompletion.EveryShownCellWasDelivered` | server/crates/sw-server/src/server.rs:1247-1467 | Over every run from a session's first moment to any at which nothing is queued or under way: every cell its client shows was announced, not named since, then taken up, covered in full if membership and rows were steady, and reported done, with an empty page exactly if nothing else of it was sent |
| `AoiCompletion.EmptyPageIff` | server/crates/sw-server/src/server.rs:1367-1377 | A cell is closed with an empty page if and only if nothing of it was sent |
| `AoiCompletion.NoCellTwiceBeforeAnother` | server/crates/sw-server/src/server.rs:1427-1467 | Hydration goes round: a cell that was taken up is not taken up again, whatever is announced, withdrawn or moved meanwhile, as long as another cell stays pending |
| `AoiSession.Delivery.NextAoiChunk` | server/crates/sw-server/src/server.rs:1386-1425 | The removal and addition loops equal the specification |
| `AoiSession.Delivery.PrepareCellHydration` | server/crates/sw-server/src/server.rs:1427-1459 | Choosing the next cell in place equals the specification |
| `AoiSession.Delivery.ScanCandidates` | server/crates/sw-server/src/server.rs:1262-1310 | The scan loop with its early stop equals the specification |
| `AoiSession.Delivery.ProcessOne` | server/crates/sw-server/src/server.rs:1247-1384 | One unit of delivery in place equals the specification, keeps the invariant and reports whether work is left |
| `Fanout.ProcessKeepsLog` | server/crates/sw-server/src/server.rs:1545-1607 | What a tick delivers goes to the captured session, to no peer twice per job, and chats in FIFO order, against any earlier log |
| `Fanout.TickDrains` | server/crates/sw-server/src/server.rs:1545-1607 | A tick with equal budgets scans exactly the smaller of its budget and the recipients outstanding over all jobs |
| `ServerLaws.ClockWaitsForOneChat` | server/crates/sw-server/src/server.rs:1545-1607 | Over every run, with chats arriving, players joining and leaving, clocks replaced and generations re-keyed between ticks: at most one chat job completes before the pending clock does |
| `ServerLaws.ChatsWaitForOneClock` | server/crates/sw-server/src/server.rs:1545-1607 | Over every such run at most one clock job completes before a waiting chat does |
| `Fanout.ClockIsOvertakenAtMostOnce` | server/crates/sw-server/src/server.rs:1552-1603 | In one tick a pending clock is overtaken by at most one chat job, and by none if it is already preferred; what overtook it counts against the ticks to come |
| `Fanout.CaptureIsFresh` | server/crates/sw-server/src/server.rs:1502-1539 | A capture equals the live sessions, and the entry ceiling never refuses one |
| `Fanout.FreshCaptureHoldsAll` | server/crates/sw-server/src/server.rs:1506-1517 | A capture holds each live session exactly once under its own generation |
| `Fanout.ChatBytesBounded` | server/crates/sw-server/src/server.rs:935-939 | Queued payload is within its bound, and below the item bound a full payload always fits |
| `Fanout.ProcessOk` | server/crates/sw-server/src/server.rs:1545-1607 | A tick keeps the queue invariant: byte count exact, jobs unfinished and in order |
| `FanoutExactness.TickDeliversExactly` | server/crates/sw-server/src/server.rs:1566-1587 | For every queued job and recipient: a tick sends it if and only if it passed the recipient and the captured session is still live and in range of the sender's cell |
| `FanoutExactness.RunJobExact` | server/crates/sw-server/src/server.rs:1566-1587 | One job's run sends to each recipient it passes that hears it, and to no other |
| `FanoutQueues.Queues.ProcessFanoutWork` | server/crates/sw-server/src/server.rs:1545-1607 | The nested delivery loops equal the specification and the preference-flipping branch is proved dead |
| `FanoutQueues.Queues.CaptureRecipients` | server/crates/sw-server/src/server.rs:1502-1528 | The capture loop equals the specification |
| `FanoutQueues.Queues.LiveRecipients` | server/crates/sw-server/src/server.rs:1506-1517 | The recipient loop yields exactly the fresh capture |
| `FanoutQueues.Queues.RetainedEntries` | server/crates/sw-server/src/server.rs:1530-1539 | The count over distinct shared audiences equals the specification |
| `FanoutQueues.Queues.RunOne` | server/crates/sw-server/src/server.rs:1566-1587 | The inner recipient loop equals the specification |
| `DirtyFlush.NoMarkIsLost` | server/crates/sw-server/src/server.rs:1609-1708 | Over every run of marks, cadences, ticks, departures and shutdown with any failures, a marked player stays queued until a write for it succeeds |
| `ServerFlush.QueueDrains` | server/crates/sw-server/src/server.rs:1609-1642 | Over server runs without a refused write: n queued players are all written in ceil(n/8) flush ticks, whoever joins, moves, chats and leaves in between, and every mark still unsaved then was made since |
| `ServerFlush.CadenceQueuesEveryone` | server/crates/sw-server/src/server.rs:1609-1612 | A cadence queues every mark there is, leaves none waiting and lifts the pause |
| `ServerFlush.MarkedAreWritten` | server/crates/sw-server/src/server.rs:1609-1642 | Over server runs: a cadence and ceil(n/8) untroubled flush ticks, n being the players then marked or queued, write everyone who was unsaved before it, also when a refused write had paused flushing |
| `ServerFlush.ShutdownReachesEveryone` | server/crates/sw-server/src/server.rs:1667-1708 | The last writes reach everyone seated, marked or queued, except exactly those refused three times, who stay queued |
| `DirtyFlush.TickStopsAtRefusal` | server/crates/sw-server/src/server.rs:1614-1642 | While paused a tick writes nobody; otherwise it writes its batch in order up to the first refusal, takes exactly those off the queue, and pauses flushing if and only if there was one |
| `DirtyFlush.BatchIsLeast` | server/crates/sw-server/src/server.rs:1618-1626 | A tick's batch is the least ids of the queue |
| `DirtyFlush.TickDrains` | server/crates/sw-server/src/server.rs:1614-1642 | A failure-free tick writes the least ids first, eight at most and never fewer than there are |
| `DirtyFlush.ShutdownReport` | server/crates/sw-server/src/server.rs:1667-1708 | Left unwritten, and on the books, are exactly those refused three times; everyone else was written; and an error is reported exactly when someone was refused twice |
| `DirtyFlush.ShutdownReportIsExactIff` | server/crates/sw-server/src/server.rs:1667-1708 | The report is exact if and only if nobody was refused twice or someone refused twice was refused again |
| `DirtyFlush.FalseAlarm` | server/crates/sw-server/src/server.rs:1702-1708 | A player written at the third attempt is reported as a failure of zero players |
| `DirtyFlush.Pipeline.ProcessDirtyFlush` | server/crates/sw-server/src/server.rs:1614-1642 | The write loop with its pause on failure equals the specification |
| `DirtyFlush.Pipeline.FlushEverything` | server/crates/sw-server/src/server.rs:1667-1708 | The shutdown retry loops equal the specification |
| `DirtyFlush.Pipeline.OnDisconnect` | server/crates/sw-server/src/server.rs:980-989 | The last write of a departing player equals the specification |
| `DirtyFlush.Pipeline.BeginDirtyFlush` | server/crates/sw-server/src/server.rs:1609-1612 | A cadence moves every mark into the flush set and lifts the pause |
| `World.CellsInRadius` | server/crates/sw-world/src/lib.rs:67-79 | Exactly the cells of the block, each once, in row-major order |
| `World.RecenterBlock` | server/crates/sw-world/src/lib.rs:130-140 | Recentring leaves the block of the new centre and changes nothing exactly when the centre is the same |
| `World.Subscription.MoveTo` | server/crates/sw-world/src/lib.rs:130-140 | Returns exactly the cells gained and lost |
| `World.PlaceOk` | server/crates/sw-world/src/lib.rs:186-204 | Placing keeps the two maps inverse with no empty bucket |
| `World.RemoveOk` | server/crates/sw-world/src/lib.rs:206-216 | Removing keeps the two maps inverse with no empty bucket |
| `World.Index.Place` | server/crates/sw-world/src/lib.rs:186-204 | In-place placement equals the specification and keeps the index consistent |
| `World.Index.Remove` | server/crates/sw-world/src/lib.rs:206-216 | In-place removal equals the specification and keeps the index consistent |
| `World.Index.InRadius` | server/crates/sw-world/src/lib.rs:226-234 | The cell-by-cell query finds exactly the entities whose own cell is within the radius |
| `World.BlockFitsInt32` | server/crates/sw-world/src/lib.rs:50-54 | A clamped position keeps its whole interest block within 32-bit integers |
| `World.CellContains` | server/crates/sw-world/src/lib.rs:49-55 | A position's cell is the one whose square contains it, west and south edges included |
| `World.ClampIsNearest` | server/crates/sw-server/src/validate.rs:42-52 | Clamping moves a coordinate no further than the bounds demand, and one within them not at all |
| `RateLimit.BoundedRefinesHistory` | server/crates/sw-server/src/ratelimit.rs:148-171 | Whatever the bounded limiter admits a full history would, and what a full history would admit is refused only when the whole key budget is spent on fresh admissions |
| `RateLimit.RefusedIff` | server/crates/sw-server/src/ratelimit.rs:148-171 | Over every run from empty under a nondecreasing clock: a request is refused if and only if its key was admitted less than an interval ago or the whole key budget is spent on other keys that were |
| `RateLimit.BoundedAdmitsIff` | server/crates/sw-server/src/ratelimit.rs:148-171 | On the limiter's own recorded times: a key is admitted if and only if it is not recent and the budget is not spent on recent keys; then it is recorded now and only keys whose interval has run out may be forgotten |
| `RateLimit.ThrottleIff` | server/crates/sw-server/src/ratelimit.rs:79-98 | A throttle that is off admits all and records nothing; otherwise exactly the keys not recent are admitted and exactly those recorded |
| `RateLimit.SourceIntervalIs` | server/crates/sw-server/src/config.rs:393-417 | The source interval is the longer of the hello interval and two process-wide intervals and one, out-of-range settings counting as the nearest admitted |
| `RateLimit.AdmissionsAreSpaced` | server/crates/sw-server/src/ratelimit.rs:148-171 | Under a nondecreasing clock two admissions of one key are an interval apart even across eviction |
| `RateLimit.SourceSitsOut` | server/crates/sw-server/src/config.rs:410-416 | With the derived interval a source is refused through two complete process-wide intervals after an admission |
| `RateLimit.KeyedAdmitsIff` | server/crates/sw-server/src/ratelimit.rs:79-97 | A key is admitted if and only if it is new or its interval has run out, and only then recorded |
| `RateLimit.BoundedAllowOk` | server/crates/sw-server/src/ratelimit.rs:148-171 | The ordered set stays the exact inverse of the map, within the key budget |
| `RateLimit.TooSoonIsExact` | server/crates/sw-server/src/ratelimit.rs:79-95 | Saturation never changes a verdict, and a rolled-back clock never opens the window |
| `RateLimit.BoundedRateLimiter.Allow` | server/crates/sw-server/src/ratelimit.rs:148-171 | In-place admission equals the specification and keeps the invariant |
| `RateLimit.RateLimiter.Allow` | server/crates/sw-server/src/ratelimit.rs:79-97 | In-place admission equals the specification |
| `RateLimit.GlobalRateLimiter.Allow` | server/crates/sw-server/src/ratelimit.rs:40-53 | In-place admission equals the specification |
| `Economy.LedgerIsFold` | server/crates/sw-econ/src/lib.rs:99-133 | For every request sequence each balance is the sum of that player's logged amounts, nonnegative and within 64 bits, and log ids are unique |
| `Economy.ResendsAreInvisible` | server/crates/sw-econ/src/lib.rs:99-133 | Resends inserted anywhere after their commit change no state and no other ack, and each returns the recorded result |
| `Economy.AcceptedIsAppliedIff` | server/crates/sw-econ/src/lib.rs:99-133 | For every consistent store and request: an accepted reply means that this player's transaction is in the log if and only if its id was never spent on another player or another transaction |
| `Economy.SharedIdIsNotApplied` | server/crates/sw-econ/src/lib.rs:99-109 | Two players with one id: both are told accepted, and the second's balance stays empty |
| `Economy.FreshTxnAcceptedIff` | server/crates/sw-econ/src/lib.rs:99-133 | A new id is accepted if and only if the balance stays within zero and the 64-bit maximum, then moves just that balance by just that amount; otherwise nothing changes, and the reason says whether it would have gone negative or out of range |
| `Economy.Ledger.Apply` | server/crates/sw-econ/src/lib.rs:99-133 | In-place application equals the specification |
| `Market.MarketIsFold` | server/crates/sw-econ/src/lib.rs:275-324 | For every run of trades each stock is the sum of logged quantities and each price the last logged one, nonnegative and within range, and so is the stock and price recorded with every log entry, folded up to that entry |
| `Market.ResentTradesAreInvisible` | server/crates/sw-econ/src/lib.rs:275-311 | Any number of resends, inserted anywhere after their commits, change no state and no other ack, and each is answered with the recorded result |
| `Market.RecordedIsCommitted` | server/crates/sw-econ/src/lib.rs:345-371 | The recorded result of a trade is stock and price folded from the log up to and including its own entry |
| `Market.AcceptedIsAppliedIff` | server/crates/sw-econ/src/lib.rs:275-324 | For every consistent store and trade: an accepted reply means that the trade is in the log if and only if its id was never spent on another port, item, quantity or price |
| `Market.SharedTradeIdIsNotApplied` | server/crates/sw-econ/src/lib.rs:275-284 | One id at two ports: the second trade is acknowledged with the first one's port and stock, and not applied |
| `Market.FreshTradeAcceptedIff` | server/crates/sw-econ/src/lib.rs:275-324 | A new trade is accepted if and only if price and resulting stock are in range, then moves just that item at just that port; otherwise nothing changes, and the reason says which of the three it was |
| `Market.PortMarket.Apply` | server/crates/sw-econ/src/lib.rs:275-324 | In-place application equals the specification |
| `ClientSync.RingKeepsMostRecent` | packages/sync/Sailwind.Online.Sync/SnapshotCache.cs:84-101 | After any pushes the ring enumerates exactly the most recent samples, oldest first |
| `ClientSync.PushUnrolled` | packages/sync/Sailwind.Online.Sync/SnapshotCache.cs:84-101 | Writing at the head drops the oldest sample once full, and none before |
| `ClientSync.EntityTrack.Push` | packages/sync/Sailwind.Online.Sync/SnapshotCache.cs:84-101 | The array update appends to the contents and drops the oldest past capacity |
| `ClientSync.EntityTrack.TryGetSample` | packages/sync/Sailwind.Online.Sync/SnapshotCache.cs:115-127 | Index arithmetic reads the contents in order and refuses what is out of range |
| `ClientSync.EntityTrack.SampleAt` | packages/sync/Sailwind.Online.Sync/Interpolator.cs:48-109 | The branch chain and search loop equal the specification, with the final fallback proved dead |
| `ClientSync.BracketExists` | packages/sync/Sailwind.Online.Sync/Interpolator.cs:90-108 | The bracket search always succeeds, for any timestamps |
| `ClientSync.BlendBetween` | packages/sync/Sailwind.Online.Sync/Interpolator.cs:92-104 | An interpolated position lies between its bracket in every component |
| `ClientSync.BlendIsProportional` | packages/sync/Sailwind.Online.Sync/Interpolator.cs:92-104 | Distance covered between the bracket, and the turn taken from one rotation to the other, is in exact proportion to time elapsed |
| `ClientSync.ExtrapolationFollowsVelocity` | packages/sync/Sailwind.Online.Sync/Interpolator.cs:79-89 | Up to the cap the pose moves by the newest velocity times the time elapsed, and past it stays where the cap put it |
| `ClientSync.ExtrapolationIsCapped` | packages/sync/Sailwind.Online.Sync/Interpolator.cs:79-89 | Extrapolation moves each component by at most the velocity times the cap |
| `ClientSync.PosesAreExplained` | packages/sync/Sailwind.Online.Sync/Interpolator.cs:48-109 | The only sample, or the oldest until its time, is shown as it is; from the newest one's time on that one moved ahead; in between the blend of the first pair that brackets the time; none exactly for an empty track |
| `ClientSync.SamplesAreShown` | packages/sync/Sailwind.Online.Sync/Interpolator.cs:48-109 | With rising timestamps the motion passes through its samples: each is shown where it was at its own time |
| `ClientSync.CacheIsHistory` | packages/sync/Sailwind.Online.Sync/SnapshotCache.cs:176-242 | Over every run of updates and prunes: an entity is in the cache exactly while its latest sample was not too old at any prune since it appeared, with exactly its most recent samples, oldest first |
| `ClientSync.SnapshotCache.PruneStale` | packages/sync/Sailwind.Online.Sync/SnapshotCache.cs:201-204 | Exactly the stale entities go, and their number is returned |
| `ClientSync.SnapshotCache.Prune` | packages/sync/Sailwind.Online.Sync/SnapshotCache.cs:224-242 | The two-pass removal keeps exactly the fresh tracks and counts the rest |
| `ClientSync.SnapshotCache.ObserveServerTick` | packages/sync/Sailwind.Online.Sync/SnapshotCache.cs:168-174 | The observed tick never goes back |
| `CanonicalJson.StringRoundTrip` | tools/Sailwind.ApiGen/CanonicalJson.cs:111-137 | Escaping as in section 7 of RFC 8259 reads back, whatever text follows |
| `CanonicalJson.EscapeIsShortest` | tools/Sailwind.ApiGen/CanonicalJson.cs:118-134 | Nothing is escaped that need not be, and what is takes its shortest form |
| `CanonicalReading.ManifestReadsBack` | tools/Sailwind.ApiGen/CanonicalJson.cs:46-83 | Whatever the strings hold, a reader that knows only the grammar of JSON finds in the output the header's values and the tool's stamp under their keys and, for every member in order, its five values each under its own key |
| `CanonicalJson.EntryLeIff` | tools/Sailwind.ApiGen/CanonicalJson.cs:95-109 | Members are ordered by type, then member, then kind, then signature, an absent one before all others |
| `CanonicalJson.TextLeIff` | tools/Sailwind.ApiGen/CanonicalJson.cs:98-107 | Ordinal order: the first unit in which two texts differ decides, and a text comes before its extensions |
| `CanonicalJson.PrintIsInjective` | tools/Sailwind.ApiGen/CanonicalJson.cs:46-83 | Equal output means equal headers and equal member lists, null counting as empty |
| `CanonicalJson.OrderIndependentIff` | tools/Sailwind.ApiGen/CanonicalJson.cs:95-109 | Output is the same for every order of the members if and only if no two members agree in all four sort keys and differ in being static |
| `CanonicalJson.PermutationInvariant` | tools/Sailwind.ApiGen/CanonicalJson.cs:95-109 | Permuting members never changes the output when ties agree |
| `CanonicalJson.WriteString` | tools/Sailwind.ApiGen/CanonicalJson.cs:111-137 | The escaping loop equals the specification |
| `CanonicalJson.SortMembers` | tools/Sailwind.ApiGen/CanonicalJson.cs:95-109 | The sort returns an ordered permutation |
| `CanonicalJson.WriteDocument` | tools/Sailwind.ApiGen/CanonicalJson.cs:46-83 | The nested append loops emit exactly the printed document |
| `CanonicalJson.Serialize` | tools/Sailwind.ApiGen/CanonicalJson.cs:46-83 | The output is a printed document of the sorted members, and the only one when ties agree |

## Left out

- Sockets, wall clocks, sleeping, logging, process start-up and outgoing datagrams: inputs and outputs only. A
  packet is counted as sent when the code hands it to the transport; a send the transport refuses is not modelled.
- LiteNetLib byte layouts and FlatBuffers encoding: packets and messages are datatypes, and encoded lengths are
  numbers that come with the message. `wellFormed` stands for the hello version and string checks.
- The economy, trade and mooring handlers of the server (server/crates/sw-server/src/server.rs:710-915): each is a
  throttle around the ledger, market and mooring tables; the ledger and market themselves are modelled.
- SQLite: its tables are maps. The database ledger's replay returns the current gold and not the recorded balance
  (server/crates/sw-persist/src/lib.rs:308-318); the replay laws are about the in-memory store.
- Display name, rotation, velocity, boat and timestamp of a session, its `dirty` mirror flag, the message sequence
  number and the world clock: carried along, decided on nowhere in the modelled code.
- A session's cell is always present once it is registered, so it is not optional here.
- Mooring ids at or above 2^63, which the source converts to signed keys.
- IEEE rounding and quaternion slerp: positions are reals, rotations opaque values with a symbolic blend. Cell
  arithmetic is shown to stay within 32 bits for clamped positions.
- Snapshots.SchedulerRecurrence: stated for windows in which the 32-bit tick does not wrap, and from a recipient
  that has just been visited inside a regular sweep; `Snapshots.EveryRecipientSettles` shows that every recipient
  gets there.
- ServerObject.SessionServer.ProcessAoiWork: one session's unit of work, the limiters, the fanout queues and the
  flush sets are used as values in this object; their own in-place forms are `AoiSession.Delivery`, the classes of
  `RateLimit`, `FanoutQueues.Queues` and `DirtyFlush.Pipeline`, proved against the same functions. The snapshot
  loop's in-place form is `Snapshots.Scheduler`.
- CanonicalJson.SortMembers: the library sort is modelled by an insertion sort, and the laws hold for any sort.
- Reference identity of shared audiences is a number given out at capture.
- Client session code, the Unity adapters, HUD, reflection scanning, architecture tests and the smoke harness:
  wrappers with easy properties.
- Argument and file parsing of the configuration; only the ceilings that validation enforces are used.
