# pgmqtt: a verified model

pgmqtt is a stateless MQTT 3.1.1/5 broker. Its pods share nothing but Postgres rows, advisory
locks and NOTIFY. This project models the parts of it that are hard to get right and proves what
they promise, for every input and over every interleaving.

Verify everything with `dafny verify dfyconfig.toml`.

## How it is modelled

- **Protocols** are transition systems: a `State`, a total function `Step` over labels, and `Run`
  over an arbitrary sequence of labels. One committed SQL statement or transaction is one step.
  Theorems are about `Run(Init, labels)` for all `labels`.
- **Code that changes an object** is a class with the source's fields and methods, each method
  tied to a function of the old state; loops stay loops.
- **Pure code** is functions and lemmas.

| file | about |
|---|---|
| `Ownership.dfy` | CONNECT takeover, tokens, late NOTIFYs, attestation, reaping, quota kicks |
| `Deliveries.dfy`, `DeliveryRaces.dfy`, `NoLoss.dfy` | the `deliveries` rows under any number of concurrent callers, composed with a subscriber: at most once, at least once, and the races |
| `Outbound.dfy` | the same code one call at a time: claim, acks, drain loop, resume, flow control |
| `Wakeup.dfy` | slots, the one-slot wake-up channel, the drain loop |
| `Inbound.dfy`, `ExactlyOnce.dfy` | inbound flow control, QoS-2 dedup, composed with a publisher |
| `PacketIds.dfy`, `RateLimit.dfy`, `ConnectWalk.dfy`, `Payload.dfy` | the allocator, the token bucket, the CONNECT walk, the NOTIFY payload |
| `Topics.dfy`, `Fanout.dfy` | topic matching, `mqtt_publish` |
| `Janitor.dfy`, `Operator.dfy`, `Soak.dfy` | dead brokers, credential convergence, the soak publisher |

## Where the code does less than it seems to promise

Each of these is a theorem below: the condition under which the promise holds on every run, and runs
that break it. Where a condition is exact its row says "if and only if".

1. *QoS 2 outbound.* At-most-once holds on every run without three step shapes: (a) a resume scan that
   sees a QoS-2 row whose claimer has not yet written to the live socket, or a row from before a clean
   start whose clean-up has not deleted it; (b) a claim of a packet id whose PUBREL is still to be
   written, by the resume or by the read loop (`internal/engine/conn.go:993-1001` updates the row first
   and writes afterwards), after the row that held the id was deleted; (c) a resume that outlives its
   socket (`internal/engine/connect.go:235-238` does not wait for it) and repeats, from its old scan, a
   row that is no longer in state 1 to the socket registered now. Each shape has a continuation that
   hands a row over twice, from every state in which the client does not hold the packet id and nothing
   under way mentions it (for (b): a claim for the live socket; for (c) and for rows from before a clean
   start: once the row was handed over), and runs from the initial state.
2. *QoS 2 inbound.* No message is inserted twice on a run without two doubling shapes: the dedup row of
   a message whose PUBREC the publisher has not seen vanishes (the sweep of disconnected sessions, the
   end of a session, a late clean-up or PUBREL), or a handler of an earlier socket commits a PUBLISH
   whose message is in the table and whose row is gone. No acknowledged message is missing on a run
   without one swallowing shape: a PUBLISH is read while a dedup row left by another message, of a
   session given up with a clean start, stands under its packet id. All three have converses and runs
   from the initial state.
3. *Wake-ups.* `drainOnce` reports a row dropped as oversized or expired like a missing slot, so the
   drain loop stops; `DropStrands` and `StrandedRun` leave another row waiting with a slot free and
   nothing to wake the loop.
4. *Inbound window.* The counter starts at 0 on a resumed session and goes negative when resumed
   rows, or rows of late handlers, are released; its conversion to uint16 then refuses a client that is
   within its window (`SpuriousRefusal`, `ResumedRefusal`).
5. *Cap.* Since migration 0015 QoS-0 rows pass a full queue, so a publish can lift the total depth
   above the cap (`DepthAfterPublish`); it never lifts the QoS>0 rows (`PublishCannotLift`). The
   retained replay inserts without looking at the cap and lifts it every time (`ReplayLifts`).
6. *Packet ids.* Across the wrap of the uint32 counter id 1 comes up twice in a row
   (`CycleIsPermutation`, `EightSuffices`), contrary to the comment at `internal/engine/conn.go:495-497`.
7. *Outbound window.* Rows fly without a slot after a retained replay (`Outbound.Conn.Replay`,
   without bound: `RetainedOverruns`), after a write that fails following its claim, and after a
   refused PUBREC for an unknown packet id, which releases a slot somebody else holds.
8. *Wills.* A client that comes back on another broker while its old broker is being handled has its
   old will fired if and only if a reaper had already listed it (`ReturnedClient`, `LiveWillFired`).
9. *QoS 1 outbound.* A row can be acknowledged away unseen when its packet id is claimed while packets
   of the previous row are under way, for example a second PUBACK (`AtLeastOnce`, `DoublePubackLoses`).
10. *Bare NOTIFY payloads.* An old-style payload is misread exactly when the client id begins with a
   UUID (`BareClientId`).

## Assumptions

- Each SQL statement or transaction is atomic and serialisable; commits are not ambiguous.
- `gen_random_uuid()` never returns a token twice; advisory-lock hashes do not collide.
- One live socket per client at a time on the network, in-order channels, emptied at a reconnect.
- Operator: nobody but the managers writes the Secret or the users row; hashes are ideal.
- Rate limit: monotone clock, exact arithmetic.
- The query results that the code orders (`ORDER BY`, `DISTINCT ON`) arrive in that order; where the
  order does not matter the model allows any.

## Model

| member | source | states |
|---|---|---|
| Ownership.StepKeeps | internal/engine/connect.go:448-532 | every step of every pod keeps: tokens belong to one Conn each, a row's non-null broker_id is the pod its token was issued to, NOTIFY tokens are superseded, snapshots are genuine |
| Ownership.RunKeeps | internal/engine/connect.go:448-532 | the same over every run |
| Ownership.UniqueOwner | internal/engine/connect.go:448-532 | in every reachable state at most one Conn on any pod holds a row's current token, and a non-null broker_id is that Conn's pod |
| Ownership.DisconnectScoped | internal/engine/conn.go:829-909 | the disconnect DELETE and UPDATE act exactly when the Conn's token is current: the row and its deliveries go, or the row is detached and keeps its token; a superseded Conn changes nothing; other clients' rows never change |
| Ownership.RetiredForever | internal/engine/connect.go:448-532 | a superseded token is never again a current token, on any run |
| Ownership.LateTakeoverHarmless | internal/listener/listener.go:351-376 | however late and in whatever order a takeover NOTIFY is dispatched, the Conn it closes is superseded |
| Ownership.TakeoverCloses | internal/engine/connect.go:212-229 | a take-over on another pod sends a NOTIFY that, whatever happens in between, closes the replaced Conn and takes it out of the registry if it is still there |
| Ownership.QuotaKickScoped | internal/engine/publish.go:443-525 | a quota kick, however late, closes only the Conn that owned the client when the overflow was looked up |
| Ownership.QuotaKickCloses | internal/engine/publish.go:443-525 | a quota kick closes the Conn that owned the client at the lookup if it is still registered |
| Ownership.OwnLockShields | internal/janitor/janitor.go:715-730 | as long as a broker's own session keeps its lock, a reap of that broker, after any run, changes nothing |
| Ownership.ReapExactly | internal/janitor/janitor.go:715-824 | a reap, or the pod's own shutdown, detaches exactly the rows that name the pod and keeps their tokens |
| Ownership.PurgeExactly | internal/janitor/janitor.go:556-600 | a connected session does not expire; an expired one, or a clean start, takes exactly the client's deliveries |
| Ownership.AttestHeals | internal/engine/engine.go:657-685 | from any reachable state one attestation restores broker_id and connected for exactly the rows whose token a Conn registered here holds, and alters no other row |
| Ownership.Tables.Take | internal/engine/connect.go:448-532 | takeOwnership rotates the token, takes the row and reports the replaced owner and token exactly when the row named one |
| Ownership.Tables.CleanDisconnect | internal/engine/conn.go:829-909 | the clean-session transaction commits iff the token is current, and otherwise changes nothing |
| Ownership.Tables.MarkDisconnected | internal/engine/conn.go:829-909 | the token-guarded detach of a persistent session |
| Ownership.Engine.RegisterConn | internal/engine/engine.go:577-591 | on this pod's part of the registry it is the machine's Register step, and the Conn it reports is the one that step closes |
| Ownership.Engine.UnregisterConnIfSame | internal/engine/engine.go:593-602 | on this pod's part of the registry it is the machine's closing of that Conn, however late |
| Ownership.Engine.TakeOver | internal/engine/connect.go:235-238 | registration followed by the shutdown of the displaced Conn leaves the newcomer registered and the map equal to the machine's |
| Deliveries.ClaimStep | internal/engine/deliver.go:205-287 | every step of every caller and of every resume, stale ones included, keeps: one identifier per row, unique per client, at most one non-DUP write per row, none before its claimer writes |
| Deliveries.ClaimRun | internal/engine/deliver.go:205-287 | the same over every run |
| Deliveries.ClaimExclusive | internal/engine/subscribe.go:306-322 | over every interleaving of any number of callers and resumes a QoS-0 row is written at most once, a QoS>0 row at most once without DUP, and all writes of one row carry the same packet id |
| Deliveries.LogComplete | internal/engine/deliver.go:205-287 | everything on its way to the client or handed over is in the log of writes that ClaimExclusive is about, on every run |
| Deliveries.StaleHandlers | internal/engine/conn.go:962-1048 | what the acknowledgement handlers of an earlier socket do to one row is what their statements, keyed by packet id, do to the table |
| Deliveries.QoS2Step | internal/engine/conn.go:982-1002 | every step but the three racy shapes keeps: no PUBREL, written or still to be written, separates two arrivals of a QoS-2 row, and while another arrival is possible the client holds the id |
| Deliveries.QoS2Run | internal/engine/deliver.go:295-385 | the same over every run |
| Deliveries.AtMostOnce | internal/engine/deliver.go:295-385 | composed with a subscriber of section 4.3.3 of MQTT Version 5.0, over any number of disconnects and resumes, no QoS-2 row reaches the application twice unless the run takes a racy step |
| DeliveryRaces.ScanRaceDoubles | internal/engine/deliver.go:361-383 | every scan that sees a row whose claimer has not written, by the live socket or by an earlier one, has a continuation that hands the row over twice |
| DeliveryRaces.UncleanScanDoubles | internal/engine/connect.go:240-277 | every scan that sees a row handed over before a clean start hands it over again |
| DeliveryRaces.ClaimRaceDoubles | internal/engine/deliver.go:205-239 | every claim, for the live socket, of an id whose PUBREL the resume, at any position, or the read loop has not written has a continuation that hands the row over twice |
| DeliveryRaces.StaleResumeDoubles | internal/engine/deliver.go:130-135 | every write of an earlier socket's resume, of a row the client has and has released, hands it over again |
| DeliveryRaces.ReleasedRowRepeats | internal/engine/deliver.go:371-383 | a row still in state 1 after the client released its id is handed over again by the next reconnect |
| DeliveryRaces.LateWriterDoubles | internal/engine/deliver.go:205-287 | from the initial state, for every QoS-2 row and id, there is a run with a late writer that hands the row over twice |
| DeliveryRaces.EarlyClaimDoubles | internal/engine/deliver.go:361-372 | from the initial state, for any two rows and any id, there is a run in which the id is claimed while a resume owes its PUBREL and a QoS-2 row is handed over twice |
| DeliveryRaces.LateAnswerDoubles | internal/engine/conn.go:993-1001 | the same with the PUBREL that a PUBREC handler has not written after its UPDATE |
| DeliveryRaces.OutlivedResumeDoubles | internal/engine/connect.go:235-238 | from the initial state, for every row and id, there is a run in which a resume outlives its socket and hands the row over twice |
| DeliveryRaces.CutOffCleanStartDoubles | internal/engine/connect.go:240-277 | from the initial state, for every row and id, there is a run in which a clean start is cut off before its clean-up and the next resume hands the row over twice |
| DeliveryRaces.OwedReachable | internal/engine/conn.go:982-1002 | a state in which a resume owes the PUBREL of an id the client has released is reachable for every row and id |
| NoLoss.StepKeeps | internal/engine/conn.go:962-1048 | every step that is not lossy keeps: a row leaves the table only after the application has it |
| NoLoss.RunKeeps | internal/engine/conn.go:962-1048 | the same over every run |
| NoLoss.AtLeastOnce | internal/engine/conn.go:962-1048 | on every run without a claim of an id still in use, a drop of an unseen row or a refusal, every QoS>0 row ever inserted is in the table or was handed over |
| NoLoss.DoublePubackLoses | internal/engine/conn.go:962-971 | from the initial state, for any two rows and any id, there is a run in which a second PUBACK deletes the next row under the id before it was sent |
| NoLoss.RefusalEnds | internal/engine/conn.go:982-992 | a PUBREC with an error code takes the row away with no PUBREL owed, and the message is not handed over |
| NoLoss.QoS0Delivered | internal/engine/deliver.go:248-275 | a QoS-0 row is deleted, written once and handed over, and no answer is expected |
| Outbound.Conn.TryAcquire | internal/engine/conn.go:548-558 | a slot is taken exactly when one is free |
| Outbound.Conn.ReturnInflight | internal/engine/conn.go:561-570 | a slot is released, never below zero, and the drain loop is kicked |
| Outbound.Conn.DeliverOne | internal/engine/deliver.go:130-287 | exactly when a PUBLISH goes out, with which id; other rows untouched; slots follow claims except for a write that fails after its claim and for a failed repeat, which gives back a slot it never took |
| Outbound.Conn.Replay | internal/engine/subscribe.go:255-322 | a retained replay: its own row, claimed without a slot, so one more row in flight than slots |
| Outbound.Conn.HandlePuback | internal/engine/conn.go:962-980 | a slot comes back exactly when a row went away |
| Outbound.Conn.HandlePubcomp | internal/engine/conn.go:1034-1048 | the same for PUBCOMP |
| Outbound.Conn.HandlePubrec | internal/engine/conn.go:982-1002 | state 1 to 2 and a PUBREL; a refusal releases a slot even for an unknown id |
| Outbound.Conn.DrainOnce | internal/engine/conn.go:626-679 | the lowest queued row is sent, or why not |
| Outbound.Conn.DrainLoop | internal/engine/conn.go:588-621 | sends go out in row order without overtaking; without drop or error it stops only on an empty queue or full slots; slot accounting is conserved |
| Outbound.Conn.ResumeOne | internal/engine/deliver.go:361-383 | one resumed row gets the answer its state calls for, a queued one is sent unless the slots are taken |
| Outbound.Conn.DrainSessionQueue | internal/engine/deliver.go:295-385 | a successful resume repeats exactly the rows in state 1 under DUP with their own id, answers exactly those in state 2 with PUBREL, and sends the queued ones, each once and in order, until the slots run out |
| Outbound.Conn.ResumeAt | internal/engine/deliver.go:361-383 | one turn of its loop keeps all of this |
| Outbound.Conn.Serve | internal/engine/conn.go:548-570 | on a clean-start Conn, over any calls, rows in flight exceed Receive Maximum by at most the number of retained replays, failed writes and refused PUBRECs |
| Outbound.RetainedOverruns | internal/engine/subscribe.go:255-269 | for every Receive Maximum and every n, n retained replays put n rows in flight with no failure and no refusal |
| Outbound.AckRemovesOne | internal/db/migrations/0001_init.sql:66 | the unique index lets an acknowledgement remove at most one row |
| Wakeup.StepKeeps | internal/engine/conn.go:548-679 | every step but a drop by the drain loop keeps every queued row on its way: a caller at work, no free slot, or a pending wake-up |
| Wakeup.NoLostWakeup | internal/engine/conn.go:561-621 | the same over every run |
| Wakeup.DropKeeps | internal/engine/conn.go:666-679 | exactly when a row dropped by the drain loop breaks the invariant |
| Wakeup.DropStrands | internal/engine/conn.go:666-679 | with nobody else at work, the drop leaves the Conn at rest with a slot free; another row is stranded if and only if one was queued |
| Wakeup.StrandedRun | internal/engine/conn.go:588-679 | from the initial state, for every window and any two rows, there is a run to such a stranded row |
| Wakeup.InternalDecreases | internal/engine/conn.go:588-621 | left alone, the goroutines of a Conn come to rest: every step decreases a well-founded measure |
| Wakeup.RestMeansDrained | internal/engine/engine.go:621-631 | at rest a queued row means that every slot is taken |
| Wakeup.RunToRest | internal/engine/conn.go:588-621 | from every state that keeps the invariant, the goroutines left alone come to rest with the queue empty or every slot taken |
| Wakeup.SlotsConserved | internal/engine/conn.go:548-570 | on every run from CONNECT the slots taken are exactly those held by callers, the loop and rows in flight, less at most the surplus releases |
| Wakeup.WaitsForAcks | internal/engine/conn.go:561-621 | without drops and surplus releases a row left queued at rest means that as many rows are in flight as the client allows |
| Wakeup.RunToEmpty | internal/engine/conn.go:588-679 | a client that acknowledges what it gets is sent everything: the Conn and acknowledgements alone empty the queue |
| Wakeup.EveryRestDrained | internal/engine/conn.go:588-621 | every drop-free run that comes to rest, external events included, has the queue empty or every slot taken |
| Inbound.Conn.constructor | internal/engine/connect.go:251-269 | a Conn starts with counter 0 and the client's rows |
| Inbound.Conn.PublishCore | internal/engine/publish.go:298-326 | dedup row and message together or neither; duplicates insert nothing |
| Inbound.Conn.HandlePublish | internal/engine/publish.go:60-213 | for every QoS exactly when the message is stored and what is answered (an acknowledgement means it is stored), each refusal with its reason, and counter minus rows changes by exactly the rows others, or an outdated DUP probe, put there |
| Inbound.Conn.Gate | internal/engine/publish.go:40-135 | the checks before the transaction: which packet is refused with what, and when a slot is taken |
| Inbound.Conn.Store | internal/engine/publish.go:138-213 | the transaction and the reply: what is inserted, when the slot stays held, also when the probed row was swept meanwhile |
| Inbound.Conn.Foreign | internal/janitor/janitor.go:660-670 | a row inserted or deleted by anybody else, and by how much the table grew |
| Inbound.Conn.Turn | internal/engine/publish.go:60-213 | one packet or foreign write keeps the accounting, and without foreign writes the window |
| Inbound.Conn.HandlePubrel | internal/engine/conn.go:1011-1032 | the slot goes with the dedup row and only with it |
| Inbound.Conn.Serve | internal/engine/publish.go:60-97 | over any packets among any foreign writes the counter is current rows minus rows at CONNECT minus the net foreign rows; after a clean start and undisturbed it stays in 0..ReceiveMaximum below 65535; the messages acknowledged are those inserted |
| Inbound.SpuriousRefusal | internal/engine/publish.go:80-90 | a PUBLISH within the window is refused if and only if the counter runs ahead of the rows past the maximum, or at least two rows that are not this Conn's own were released unreplaced and not so many that the uint16 falls back into the window |
| Inbound.ResumedRefusal | internal/engine/publish.go:80-90 | on every session resumed with two rows, once both are released, the next QoS>0 PUBLISH gets 0x93 |
| ExactlyOnce.StepKeeps | internal/engine/publish.go:138-154 | every step keeps the handshake in order; every step but a doubling one keeps messages unique, every step but a swallowing one keeps acknowledged messages in the table; clean starts, vanishing rows and late handlers included |
| ExactlyOnce.RunKeeps | internal/engine/publish.go:138-154 | the same over every run |
| ExactlyOnce.InsertedExactlyOnce | internal/engine/publish.go:311-326 | no message is inserted twice on a run without a doubling step, and every completed handshake inserted its message on a run without a swallowing one |
| ExactlyOnce.UnprotectedDoubles | internal/janitor/janitor.go:660-670 | every step that takes away the dedup row of an inserted message whose PUBREC was not seen has a continuation that inserts it again |
| ExactlyOnce.LatePublishDoubles | internal/engine/publish.go:311-326 | every doubling late PUBLISH inserts its message again |
| ExactlyOnce.SwallowLoses | internal/engine/publish.go:140-154 | every swallowing step on a message not in the table has a continuation in which its handshake completes and it is not inserted |
| ExactlyOnce.LeftRowSwallows | internal/engine/connect.go:251-269 | from the initial state, for every id and any two messages, a session is given up, its row is left by a late handler or a clean-up that is cut off, and the next message under that id completes without being inserted |
| ExactlyOnce.SweptRowDoubles | internal/janitor/janitor.go:660-670 | from the initial state, for every message and id, there is a run in which the sweep leads to a second insertion |
| ExactlyOnce.OutlivedHandlerDoubles | internal/engine/publish.go:140-154 | from the initial state, for every message and id, there is a run in which the handler of an earlier socket inserts it again |
| ExactlyOnce.RetryFansOut | internal/engine/publish.go:311-326 | a rolled-back publish leaves no dedup row; its retransmission, at any position among the packets resent, inserts the message for the first time if and only if no row of another message is left under its id |
| ExactlyOnce.InsertionsSpendPackets | internal/engine/publish.go:298-326 | every insertion uses up a packet: on every run there are at most as many insertions as packets sent |
| PacketIds.CandidateAt | internal/engine/conn.go:493-500 | the id of each counter value up to the wrap |
| PacketIds.CycleIsPermutation | internal/engine/conn.go:493-500 | the next 65535 candidates are a permutation of 1..65535 if and only if they do not cross the wrap |
| PacketIds.WrapRepeats | internal/engine/conn.go:493-500 | at the wrap id 1 comes up twice in a row |
| PacketIds.FirstCandidateFree | internal/engine/conn.go:459-488 | after seeding with MAX the first candidate is free unless 65535 and 1 are both in use |
| PacketIds.Conn.EnsureSeeded | internal/engine/conn.go:459-488 | seeded once, with the clamped maximum; a failed query leaves everything as it was |
| PacketIds.Conn.NextCandidate | internal/engine/conn.go:493-500 | one step of the counter modulo 2^32 |
| PacketIds.Conn.Alloc | internal/engine/conn.go:511-526 | the eight-try loop computes the search over what its checks saw, and the counter ends at the last candidate |
| PacketIds.FoundIsFree | internal/engine/conn.go:511-526 | a returned id was unused when checked, and all earlier candidates were in use |
| PacketIds.AllocSucceeds | internal/engine/conn.go:511-526 | with fewer than 8 ids in use, away from the wrap, allocation succeeds |
| PacketIds.WrapExhausts | internal/engine/conn.go:511-526 | from every counter value whose eight candidates cross the wrap, fewer than 8 ids in use can exhaust the search |
| PacketIds.EightSuffices | internal/engine/conn.go:511-526 | every choice of fewer than 8 ids in use lets allocation succeed if and only if the eight candidates do not cross the wrap |
| PacketIds.SevenSuffices | internal/engine/conn.go:511-526 | fewer than 7 ids in use always do |
| RateLimit.Conn.constructor | internal/engine/conn.go:123-135 | a new Conn starts with a full bucket |
| RateLimit.Conn.TryConsume | internal/engine/conn.go:294-320 | refill with truncation, cap, one token per packet |
| RateLimit.Conn.Serve | internal/engine/conn.go:294-320 | the bucket and the number admitted after any sequence of packets |
| RateLimit.WholeTokens | internal/engine/conn.go:302-303 | the truncated product is the number of whole tokens the elapsed time is worth |
| RateLimit.ConsumePays | internal/engine/conn.go:294-320 | tokens plus refill to come never grow, and each admission costs one |
| RateLimit.RateBound | internal/engine/conn.go:294-320 | whatever came before, any window of T seconds admits at most cap + ceil(cap*T) packets |
| RateLimit.RefusedExactly | internal/engine/conn.go:294-320 | a packet is refused if and only if the store is empty and less than a token's time has passed since the last refill, and then changes nothing |
| RateLimit.BurstExactly | internal/engine/conn.go:294-320 | a burst after any pause gets exactly the tokens left over plus the whole tokens the pause was worth, up to cap |
| RateLimit.NoStarvation | internal/engine/conn.go:294-320 | refused packets do not push the refill away: a packet 1/cap seconds after the last refill, or one before it, is admitted |
| RateLimit.NeverRefused | internal/engine/conn.go:294-320 | packets at least 1/cap seconds apart are never refused |
| ConnectWalk.DecodeVarint | internal/mqtt/codec.go:371-386 | the loop agrees with the recursive reading of section 1.5.5, errors included |
| ConnectWalk.VarintRoundTrip | internal/mqtt/codec.go:371-386 | decoding inverts encoding on 0..268435455 whatever bytes follow |
| ConnectWalk.VarintShape | internal/mqtt/codec.go:371-386 | an accepted integer is in range and is the shortest encoding if and only if its last byte is not a superfluous zero |
| ConnectWalk.ConnectRoundTrip | internal/mqtt/codec.go:278-367 | for every printed v5 CONNECT the walk answers with the first Maximum Packet Size of its property list, for other levels with none |
| ConnectWalk.WalkPrinted | internal/mqtt/codec.go:319-366 | the same for a property block |
| ConnectWalk.WalkExact | internal/mqtt/codec.go:319-366 | on arbitrary bytes the walk answers a size exactly for blocks that print that way, and rejects all others |
| ConnectWalk.TurnAt | internal/mqtt/codec.go:319-366 | one pass of the switch at an offset, without leaving the block |
| ConnectWalk.UserAt | internal/mqtt/codec.go:343-349 | the two strings of a user property |
| ConnectWalk.WalkLoop | internal/mqtt/codec.go:319-366 | the loop terminates on arbitrary bytes and computes the walk |
| ConnectWalk.PropertiesAt | internal/mqtt/codec.go:300-312 | the property length, its errors, and the block it delimits |
| ConnectWalk.MaximumPacketSizeOf | internal/mqtt/codec.go:278-367 | the whole function, all error cases included |
| Payload.PayloadRoundTrip | internal/listener/notifier.go:26-31 | parsing token and client id back gives exactly what was sent, for every UUID and every client string |
| Payload.AcceptedIsNotify | internal/listener/listener.go:398-407 | an accepted payload is, up to digit case, the notification for what it is read as |
| Payload.AnyCaseAccepted | internal/listener/listener.go:398-407 | a token with digits of any case is read as that token |
| Topics.JoinSplit | internal/mqtt/topic.go:45-68 | splitting into levels loses nothing |
| Topics.FilterRule | internal/mqtt/topic.go:45-68 | the validator's level loop accepts exactly the filters of the positional rule of section 4.7.1 |
| Topics.NameExactly | internal/mqtt/topic.go:23-42 | the name validator accepts exactly the UTF-8 encodings of 1 to 65535 bytes without U+0000 and without wildcards |
| Topics.FilterExactly | internal/mqtt/topic.go:45-68 | the filter validator accepts exactly such encodings, wildcards where section 4.7.1 allows them |
| Topics.TopicMatch | internal/db/migrations/0001_init.sql:68-97 | the SQL loop agrees with section 4.7 level by level, `$` rule included, for every filter the validator accepts |
| Topics.PlainFilter | internal/db/migrations/0001_init.sql:68-97 | a filter without wildcards matches itself and nothing else |
| Topics.MultiLevel | internal/db/migrations/0001_init.sql:68-97 | p/# matches p and everything below it, and nothing else |
| Topics.SingleLevel | internal/db/migrations/0001_init.sql:68-97 | p/+ matches p, a separator and one level, and nothing else |
| Topics.LeadingLevel | internal/db/migrations/0001_init.sql:68-97 | +/p matches one level, a separator and p, except for a `$` topic |
| Topics.AloneWild | internal/db/migrations/0001_init.sql:80-83 | # alone matches every topic, + alone every topic of one level, except `$` topics |
| Topics.NameIsFilter | internal/mqtt/topic.go:23-68 | every valid topic name is a valid filter that matches itself |
| Fanout.DistinctOn | internal/db/migrations/0014_publish_returns_delivered_count.sql:44-54 | each client once, at the greatest QoS that neither the publisher nor all its rows fall short of |
| Fanout.OrderExists | internal/db/migrations/0014_publish_returns_delivered_count.sql:54 | every result of the join can be put in the query's order |
| Fanout.Matches | internal/db/migrations/0014_publish_returns_delivered_count.sql:44-54 | exactly the clients with a session and a matching subscription that no-local does not suppress, at the greatest QoS up to the publish QoS that such a subscription reaches |
| Fanout.OverCap | internal/db/migrations/0014_publish_returns_delivered_count.sql:55-65 | the OFFSET cap-1 test holds if and only if cap > 0 and the depth over states 0..2 is at least cap |
| Fanout.ShortCircuitRefines | internal/db/migrations/0005_quota.sql:52-71 | the short-circuit revisions give the verdict of the counting one |
| Fanout.PublishTo | internal/db/migrations/0018_mqtt_publish_drop_connected_filter.sql:86-119 | row, target and overflow of one matched client, in each revision |
| Fanout.Publish | internal/db/migrations/0014_publish_returns_delivered_count.sql:66-84 | exactly one row per inserted client, the overflow set, the targets and the count |
| Fanout.MqttPublish | internal/db/migrations/0014_publish_returns_delivered_count.sql:44-84 | from subscriptions to rows: each row is queued, for a matching client, at that QoS, and its only one; every such client the gates let through has one |
| Fanout.Partition | internal/db/migrations/0014_publish_returns_delivered_count.sql:66-84 | matched clients split exactly into inserted, overflow and silent QoS-0 drops, and the counts add up |
| Fanout.DepthAfterPublish | internal/db/migrations/0018_mqtt_publish_drop_connected_filter.sql:98-106 | a publish lifts a client above its cap if and only if a QoS-0 row passes a full queue in revision 0018 |
| Fanout.TrackedAfterPublish | internal/db/migrations/0018_mqtt_publish_drop_connected_filter.sql:98-106 | the QoS>0 rows stay within the cap in every revision |
| Fanout.PublishCannotLift | internal/db/migrations/0018_mqtt_publish_drop_connected_filter.sql:98-106 | a publish never lifts the QoS>0 rows, nor before 0018 any rows, above the larger of cap and present depth |
| Fanout.CapHolds | internal/db/migrations/0014_publish_returns_delivered_count.sql:66-84 | serial publishes and acknowledgements never push depth above the cap, and retained replays by at most their number: QoS>0 rows in every revision, all rows before 0018 |
| Fanout.ReplayLifts | internal/engine/subscribe.go:290-293 | every retained replay lifts the depth by one, whatever the cap |
| Fanout.HealedRouting | internal/db/migrations/0014_publish_returns_delivered_count.sql:68-81 | after one attestation a publish below the cap names this pod and inserts a row that Deliver here selects |
| Janitor.RowFrame | internal/janitor/janitor.go:715-824 | only a janitor holding the lock of a row's broker changes that row |
| Janitor.StepKeeps | internal/janitor/janitor.go:715-824 | every step of every janitor keeps the progress invariant of each client |
| Janitor.DeadBrokerHandled | internal/janitor/janitor.go:715-824 | for any number of janitors each will of a dead broker whose client stays away is attempted exactly once and cleared, or kept and due at now+delay or at session expiry, whichever is earlier; never both or neither; no row names the broker |
| Janitor.ReaperFinishes | internal/janitor/janitor.go:715-824 | a janitor left alone with a free lock handles the broker to the end, attempts each listed will once and gives the lock back |
| Janitor.LiveRowsUntouched | internal/janitor/janitor.go:722-730 | while a broker's own session holds its lock no row of that broker changes but by its client's CONNECT, on every run |
| Janitor.AttemptedAtMostOnce | internal/janitor/janitor.go:779-785 | on every run, whatever the clients do, a will is attempted for a dead broker at most once |
| Janitor.ReturnedClient | internal/janitor/janitor.go:736-804 | a client that comes back elsewhere: its will is attempted afterwards if and only if a reaper had listed it, and no reaper of the old broker touches its row, so it is not scheduled |
| Janitor.LiveWillFired | internal/janitor/janitor.go:779-785 | a run in which the will of a client connected elsewhere is fired |
| Janitor.HandleDeadBroker | internal/janitor/janitor.go:715-824 | one call: which wills fire, each row detached with its will cleared or due at the earlier of now+delay and expiry, other brokers' rows unchanged |
| Janitor.ClampUint32ToInt32 | internal/engine/connect.go:566-571 | stored delays are in 0..2^31-1 and exact where they fit |
| Operator.StepKeeps | internal/operator/user_controller.go:393-486 | every step of every manager keeps the convergence invariant |
| Operator.PasswordStable | internal/operator/user_controller.go:393-486 | once the Secret has a password no manager changes it, over every interleaving and every stale read |
| Operator.RowVerifiesSecret | internal/operator/user_controller.go:233-303 | the users row always verifies the Secret's password |
| Operator.UndisturbedPassConverges | internal/operator/user_controller.go:233-303 | from every state a manager that reads fresh data finishes with a row and a status that agree with the Secret |
| Operator.AlwaysConverges | internal/operator/user_controller.go:233-303 | the same from whatever point it had reached |
| Operator.CommitExactly | internal/operator/user_controller.go:393-486 | a commit on anything but the latest version leaves the Secret alone and ends the pass; on the latest it keeps a password that is there |
| Operator.CutShort | internal/operator/user_controller.go:233-303 | a pass is cut short exactly when status and row already agree with the password, and the row verifies it |
| Soak.Publisher.constructor | cmd/soak/main.go:465-472 | nothing issued, nothing acknowledged |
| Soak.Publisher.NextNumber | cmd/soak/main.go:555-562 | the next number to be replayed, else a new one |
| Soak.Publisher.Track | cmd/soak/main.go:563-570 | the number is registered under the next id |
| Soak.Publisher.Send | cmd/soak/main.go:511-583 | nothing without a slot, else one PUBLISH, with the books kept |
| Soak.Publisher.Puback | cmd/soak/main.go:486-508 | the oldest PUBLISH is acknowledged and its slot released |
| Soak.Publisher.Lose | cmd/soak/main.go:586-596 | what was outstanding goes to the head of the replay queue |
| Soak.Publisher.Run | cmd/soak/main.go:465-597 | over every schedule 0..seq-1 is exactly acknowledged, outstanding and to be replayed, each number once; so with the last two empty all were acknowledged exactly once |
| Soak.Collect | cmd/soak/main.go:588-591 | the map iteration yields every outstanding number once |
| Soak.WindowMustFit | cmd/soak/main.go:563-570 | one PUBLISH above 65535 outstanding ones overwrites the oldest |

## Left out

- Sockets, TLS, WebSocket, HTTP, logging, metrics, configuration: no hard property.
- The packet codec, bcrypt, pgx, controller-runtime: foreign code.
- The reconciler, the janitors and the pods' interleaved statements are steps on values, not objects updated in place: several processes share the tables, so aliasing inside one process is not captured.
- Retained messages, shared subscriptions, topic aliases, subscription identifiers, message properties.
- `fireDueWills`, `expireSessions` and the sweeps: appear only as arbitrary deletes and detaches (`Delete`, `Expire`, `Forget`, `Foreign`).
- Janitor crashes and database errors inside `handleDeadBroker`: its steps run to the end.
- Wills are not claimed to arrive: a failed publish is cleared and a crash may repeat one.
- `sweepOrphanedSockets` and same-pod registration order can close a current-token Conn; no claim is made that they do not.
- The CONNECT clean-up transaction is not token-guarded; it appears as `CleanStart` and as deletes at any time, without a claim of its own.
- Wall-clock liveness: `InternalDecreases` gives termination of the goroutines, not a time bound.
- Janitor.DeadBrokerHandled: is about clients that stay away; AttemptedAtMostOnce and ReturnedClient are about those that come back.
- Ownership.Tables.MarkDisconnected: the columns will_fire_at, session_expires_at and will_* are not modelled; only Janitor looks at wills.
- Topics.TopicMatch: says nothing for filters the validator rejects, which are never stored.
- Outbound.Conn.DeliverOne: payload, properties, retain flag and topic alias of the PUBLISH are not modelled.
- RateLimit.RateBound: exact arithmetic, because float64 rounding of the refill is not modelled.
- Operator.RowVerifiesSecret: user-supplied Secrets and password rotation by the user are not modelled.
- Soak.Publisher.Run: PUBACKs arrive in order; a reader that meets another packet type is a lost connection.
