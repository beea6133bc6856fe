# Verified model of the unstation streaming mesh

unstation is a peer-to-peer live-streaming system. This project models, in Dafny, the parts whose
behaviour depends on every interleaving of events, and proves what holds over whole runs:

- **The mesh node actor.** `MeshState` gives the node's state and, for each event (connect,
  disconnect, inbound message, tick, live edge, durable-floor result, reconfiguration), the state it
  leads to. `MeshRuns` holds the theorems about every run from every start: single delivery,
  request accounting, bounded and draining buffers, a window that only slides, authenticity of all
  bytes, honest peers never blamed, metered upload, earned bans, choking peers left alone. Each
  invariant has its own module (`MeshDelivery`, `MeshFlight`, `MeshBuffers`, `MeshWindow`,
  `MeshAuthority`, `MeshHonest`, `MeshMeter`, `MeshConduct`, `MeshBans`, `MeshChoke`, `MeshCap`,
  `MeshRepeat`). What each event does is stated apart from how it is computed: `MeshIssue` for the
  tick's requests, `MeshOutcomes` for chunks, ids, deadlines and charges, `MeshEffects` for messages,
  queues and pushes, `Unchokes` for the upload slots, `MeshArrival` from the wire to the player.
  `MeshNode` is the actor as a class with the source's fields and loops; each handler is proved to
  compute the corresponding function of `MeshState`, and its `Valid` says that the object's life is a
  run, so the theorems hold of the object. `MeshExamples` holds runs that mark where a law ends.
- **Its components.** `BufferMap`, `Reassembly`, `Store` and `Picker`, each as a value with its
  meaning and as the mutable object of the source; `Wire` and `Framing` for the signed edge payload
  and the chunk frames (SCALE codec, section A.2.2 of the Polkadot Protocol Specification).
- **Edge gossip.** `Gossip` is a network of full mesh nodes with announcements in flight, loss,
  re-announcement, outside injection and any other local events in between.
- **Low-latency HLS.** `Hls` for the sliding window, blocking reload and playlist grouping
  (sections 6.2.1 and 6.2.2 of RFC 8216), `Calendar` for the date arithmetic (section 5.6 of RFC 3339).
- **The WebRTC reactor.** `Reactor`: candidate buffering, the paced queue, connect and disconnect
  notices; `ReactorRuns` tells the same from the commands alone.
- **The open relay.** `Policy` and `Supervisor`: admission, eviction and budgets; `SupervisorRuns` says when
  each happens.

Modelling choices. Hashing and signature verification are arbitrary functions carried in the state;
in `Gossip` a signature is membership in the set of payloads the publisher signed. Time is a
nondecreasing natural number, `f64` is `real`, a random draw is an arbitrary value in [0, 1). Hash
tables iterate in an arbitrary order supplied with the event that walks them; the player's position,
the upload-slot choice and floor results are event inputs. Sequence numbers are naturals that fit
`u64` where they enter from outside. `hist`, `trace`, `Trail`, `Ledger` and the HLS `log` are histories
kept for the theorems; no decision reads them.

Where the code and its comments differ the code is followed, and each difference has its exact law,
with a run that shows it where it is about runs:

- `reasm_bytes` is not bounded by MAX_REASM_BYTES, because admission counts bytes already buffered
  (`MeshRuns.CapHoldsExactly`, `MeshExamples.ReassemblyBoundIsReached`);
- an upload budget of zero removes the meter instead of stopping uploads
  (`MeshMeter.ZeroBudgetIsUnmetered`, `MeshExamples.ZeroBudgetHasNoBound`);
- a timeout lifts a reputation that lies below 0.1 (`MeshConduct.TimeoutForgivesExactly`);
- a node that becomes a seed keeps the choke flags it had (`MeshRuns.NonViewerChokesExactly`,
  `MeshExamples.SeedCanChoke`);
- any verified recruitment, not only the owner's, clears a stream's release mark
  (`Supervisor.MarksLastExactly`, `Supervisor.StrangerClearsMark`).

## Model

| member | source | states |
|---|---|---|
| `MeshRuns.DeliveredAtMostOnce` | crates/unstation-core/src/node.rs:1468-1544 | in every run without local production whose durable-floor results arrive for segments at or above the prune floor, each segment reaches the sink at most once across pull, push, hedge, parked and floor paths, through pruning and snap-to-live; `delivered_total` is the number of distinct segments delivered |
| `MeshRuns.DeliveryBreaksExactly` | crates/unstation-core/src/node.rs:1264-1280 | a run without local production keeps the delivery invariant in every state if and only if no floor result verifies below the prune floor for a segment already played or parked |
| `MeshRuns.PlayedTwiceExactly` | crates/unstation-core/src/node.rs:1657-1667 | in a run without local production every segment is played at most once if and only if no event was a floor result verifying below the floor, or an edge verifying parked bytes, for a segment already played |
| `MeshRepeat.StepHeld` | crates/unstation-core/src/node.rs:1264-1280 | every event plays at most one segment, and an old one exactly when it is one of those, even after an earlier repeat |
| `MeshDelivery.FallbackOnceExactly` | crates/unstation-core/src/node.rs:1264-1280 | one floor result keeps the delivery invariant exactly when it is not one of those |
| `MeshDelivery.ParkedCopyPlaysAgain` | crates/unstation-core/src/node.rs:1683-1702 | after a floor result below the floor, a parked copy of the same segment is played again when its id is announced |
| `MeshExamples.FloorCanRepeat` | crates/unstation-core/src/node.rs:1264-1280 | a run from the start of a live viewer in which a floor result plays a delivered and pruned segment again |
| `MeshExamples.ParkedCopyCanRepeat` | crates/unstation-core/src/node.rs:1264-1280 | a run from the start of a live viewer in which the floor plays a segment first and its parked copy plays it again |
| `MeshDelivery.AdmittedIsNew` | crates/unstation-core/src/node.rs:1482-1498 | the admission gate lets through no chunk of a segment that was ever delivered, pruned or not |
| `MeshDelivery.PlannedIsNew` | crates/unstation-core/src/node.rs:1184-1192 | the picker never plans a segment that was ever delivered, pruned or not |
| `MeshRuns.ParkedIsUnknownExactly` | crates/unstation-core/src/node.rs:1537-1542 | over every run, floor results included, no parked segment has a known id exactly as long as no parked segment is produced locally |
| `MeshBuffers.ParkKeeps` | crates/unstation-core/src/node.rs:1670-1680 | parking keeps the byte counter exact and within its cap |
| `MeshRuns.EveryStateIsSound` | crates/unstation-core/src/node.rs:716-851 | in the last state of every run requests, buffers, window and conduct are sound together, ticks leave nothing stale, and on-time runs deliver once |
| `MeshRuns.RequestsAreAccounted` | crates/unstation-core/src/node.rs:1193-1231 | in every reachable state each peer's `pending_bytes` is the segment size times its primary plus hedge entries, asked peers are connected, hedges sit beside another peer's primary; after a tick nothing in flight is older than the timeout |
| `MeshFlight.ClearPendingFlight` | crates/unstation-core/src/node.rs:1551-1568 | clearing a request bills both asked peers back exactly, whoever delivered, and leaves every other account alone |
| `MeshFlight.DisconnectFlight` | crates/unstation-core/src/node.rs:748-777 | a disconnect drops the peer's requests, promotes surviving hedges and keeps every remaining bill exact |
| `MeshFlight.TickFlight` | crates/unstation-core/src/node.rs:1037-1050 | a whole tick keeps the accounts and leaves only fresh requests |
| `MeshFlight.StepFlight` | crates/unstation-core/src/node.rs:716-851 | every event keeps the request accounts |
| `MeshRuns.BuffersAreBounded` | crates/unstation-core/src/node.rs:1500-1519 | `reasm_bytes` is the sum over at most MAX_REASM slots, each within its announced size, hence at most MAX_REASM x MAX_SEGMENT_BYTES; parked bytes are counted exactly and capped; after a tick every slot is younger than its deadline |
| `MeshBuffers.ReassemblyBound` | crates/unstation-core/src/node.rs:1500-1505 | no more bytes are buffered than slots of the largest size can hold |
| `MeshRuns.CapHoldsExactly` | crates/unstation-core/src/node.rs:299-303 | while the open slots announce no more than MAX_REASM_BYTES the counter keeps that cap, in every run; it stays within it throughout a run if and only if no chunk carries it over |
| `MeshCap.StepCarriesExactly` | crates/unstation-core/src/node.rs:1500-1515 | from within the cap an event carries the counter past it exactly when it is an admitted chunk that does not complete its segment and brings more than is left |
| `MeshExamples.ReassemblyBoundIsReached` | crates/unstation-core/src/node.rs:1500-1515 | a run that buffers MAX_REASM x MAX_SEGMENT_BYTES bytes, eight times the announced cap |
| `MeshBuffers.StepBuffers` | crates/unstation-core/src/node.rs:1052-1079 | every event keeps the byte accounts; events without segment bytes only shrink reassembly; a tick leaves only young slots |
| `MeshOutcomes.ChunkExactly` | crates/unstation-core/src/node.rs:1468-1544 | what a chunk does, in full: ignored if held, impossible or without room; out of reach, charged as abuse exactly when far off; kept in its slot while the segment has gaps; and at completion the slot goes and the segment is played, charged as a forgery, or parked by its id alone |
| `MeshOutcomes.EdgeExactly` | crates/unstation-core/src/node.rs:1683-1702 | recording an id raises the head, and bytes parked for it stop waiting: played if they match and are missing, their sender charged with a forgery if they do not match |
| `MeshOutcomes.FloorExactly` | crates/unstation-core/src/node.rs:1264-1280 | a floor result is played, ending the requests for the segment, exactly when its bytes match the captured id and the segment is missing; otherwise the fetch is over and nothing else moves |
| `MeshOutcomes.AcceptIsAccepted` | crates/unstation-core/src/node.rs:1628-1654 | an accepted segment is appended to the sink, stored and marked held; both requests for it end and no other; its sender heals by a fiftieth up to one unless banned, and its speed is sampled exactly if it was the one first asked |
| `MeshArrival.SentSegmentIsPlayed` | crates/unstation-core/src/node.rs:214-244 | the frames of a missing segment of known id, from an unbanned peer that may send it, in any order with any repeats: nothing is played before the last distinct one, and that one plays exactly the segment |
| `MeshRuns.SilenceDrains` | crates/unstation-core/src/node.rs:1052-1065 | if no segment bytes arrive while the deadline passes and a tick fires, reassembly is empty and its counter zero |
| `MeshRuns.WindowOnlySlides` | crates/unstation-core/src/node.rs:896-951 | between any two moments the prune floor only rises and is the local map's base, a non-empty window stays non-empty, and its newest segment never goes back, through snap-to-live |
| `MeshRuns.IdsAreVouchedFor` | crates/unstation-core/src/node.rs:868-873 | over every run every id ever recorded came from the initial map, the chain edge, the local segmenter or a gossiped edge that verified under the publisher key, earlier in the run |
| `MeshAuthority.StepRecords` | crates/unstation-core/src/node.rs:1430-1449 | every event records at most the ids it is entitled to vouch for, and forgets none |
| `MeshRuns.OnlyAuthenticBytes` | crates/unstation-core/src/node.rs:1521-1543 | everything played or stored hashes to an id vouched for that same segment earlier in the run, on the direct, parked and durable-floor paths |
| `MeshAuthority.StepAuth` | crates/unstation-core/src/node.rs:1264-1280 | every event keeps store and sink authentic and records at most the ids it is entitled to vouch for |
| `MeshRuns.HonestPeerIsNeverBlamed` | crates/unstation-core/src/node.rs:1499-1532 | a peer whose chunks are all true slices is never charged with a forgery, whatever other peers send, provided the recorded ids are the real ones |
| `MeshHonest.StepHonest` | crates/unstation-core/src/node.rs:286-294 | a (peer, segment) slot only ever holds that peer's own chunks, so an honest peer's slots hold true slices after every event |
| `MeshRuns.UploadIsMetered` | crates/unstation-core/src/node.rs:953-1005 | with a constant positive budget and a memory store, the segment bytes sent in any stretch of any run, paced or pushed, are at most one burst plus budget/8 times the tick time; tokens stay between zero and the burst |
| `MeshMeter.StepSpends` | crates/unstation-core/src/node.rs:1707-1737 | every event pays for what it sends out of tokens held or earned by elapsed tick time |
| `MeshMeter.RefillSpends` | crates/unstation-core/src/node.rs:953-961 | the refill adds at most what the budget earns in the elapsed time and never overfills the burst |
| `MeshRuns.UploadFollowsTheBudget` | crates/unstation-core/src/node.rs:831-841 | however the budget changes among positive values, bytes sent in any stretch are at most one burst of the budget at its start plus what the budgets in force earned |
| `MeshMeter.ZeroBudgetIsUnmetered` | crates/unstation-core/src/node.rs:976-1005 | on a node with budget zero a push reaches every linked target, the paced drain stops only at an empty queue or the tick's allowance, and no token moves |
| `MeshExamples.ZeroBudgetHasNoBound` | crates/unstation-core/src/node.rs:1714-1736 | for every number of bytes some run with budget zero sends more in no time at all |
| `MeshFlight.AskFlight` | crates/unstation-core/src/node.rs:1194-1228 | issuing a planned request, primary or hedge, keeps every account exact; which request becomes what is `MeshIssue.IssueExactly` |
| `MeshIssue.IssueExactly` | crates/unstation-core/src/node.rs:1193-1231 | a request of a peer in the table, linked and not choking us, for an unparked segment: a free segment gets it as its primary, a redundant one beside another peer's primary without a hedge becomes the hedge, each billing one segment to that peer alone; any other request changes nothing |
| `MeshIssue.FetchExactly` | crates/unstation-core/src/node.rs:1245-1260 | a request to the seed or the floor starts a fetch under the known id exactly when the floor exists, the id is known, none runs for the segment and fewer than three run at all |
| `MeshIssue.OnlyPlanned` | crates/unstation-core/src/node.rs:1184-1231 | issuing a plan leaves nothing in flight that was not before and is not planned, moves no primary, and makes no hedge that was not planned as redundant beside another peer's primary |
| `MeshIssue.HedgePlaced` | crates/unstation-core/src/node.rs:1203-1228 | a free segment planned of one peer and redundantly of another, both open to us, ends with exactly that primary and that hedge, both asked now |
| `MeshIssue.PanicIsInFlight` | crates/unstation-core/src/node.rs:1184-1231 | after every tick each missing, unparked panic-zone segment that somebody holds is in flight, if its fastest holders may be asked |
| `MeshIssue.PanicIsHedged` | crates/unstation-core/src/node.rs:1193-1228 | after every tick a free panic-zone segment with two holders, one of them in time, all of which may be asked, has a primary of a fastest holder and a hedge of another |
| `MeshIssue.PanicFallsBack` | crates/unstation-core/src/node.rs:1245-1260 | after every tick a panic-zone segment of known id that no holder delivers in time is being fetched from the floor, or the floor is at its limit |
| `MeshRuns.BansAreEarned` | crates/unstation-core/src/node.rs:1584-1602 | every ban in any run directly follows a forgery or protocol abuse that is at least the second since the peer joined or last timed out; reputations stay in (0, 1] |
| `MeshConduct.ChargeConduct` | crates/unstation-core/src/node.rs:143-150 | one more charge keeps every peer's standing consistent with its offence count, and only an offence can ban |
| `MeshConduct.TimeoutForgivesExactly` | crates/unstation-core/src/node.rs:1584-1592 | a timeout raises a reputation exactly when it is below the timeout floor; the other penalties always lower it |
| `MeshConduct.StepConduct` | crates/unstation-core/src/node.rs:716-851 | every event keeps the conduct record sound |
| `MeshRuns.BelowTheFloorIsBanned` | crates/unstation-core/src/node.rs:1584-1623 | in every state of every run a peer whose reputation is below the floor is banned, a peer is banned exactly when the record shows a ban since it last joined, and a banned peer has no subscription and no reassembly slot |
| `MeshBans.StepBans` | crates/unstation-core/src/node.rs:716-851 | every event keeps that so |
| `MeshBans.FiveForgeriesSuffice` | crates/unstation-core/src/node.rs:1904-1930 | from any reputation up to one, five forgeries in a row bring it below the floor, so the fifth bans at the latest |
| `MeshOutcomes.PenalizeCharges` | crates/unstation-core/src/node.rs:1584-1623 | a charge halves the reputation for a forgery, takes a fifth down to no less than a tenth for a timeout and a tenth for abuse, bans below a twentieth, is on record, and touches no other peer |
| `MeshOutcomes.AbuseExactly` | crates/unstation-core/src/node.rs:1282-1399 | a message is charged as abuse exactly when it is over its limit: 32 wants, 8 KiB of buffer map, 256 peers, 64 records; and then it does nothing else |
| `MeshOutcomes.ExpiryExactly` | crates/unstation-core/src/node.rs:1037-1050 | a request two seconds old is over together with its hedge, its slot is dropped and the peer first asked is charged a timeout; a younger one stands |
| `MeshFlight.PlanAvoidsTheBanned` | crates/unstation-core/src/engine.rs:55-85 | the engine's plan names only unbanned peers of the table that advertise the segment, and only produced, unheld segments of the window |
| `MeshRuns.ChokingPeerIsNotAsked` | crates/unstation-core/src/node.rs:1208-1212 | from the moment a peer chokes us until it unchokes us or leaves, it is asked for nothing new, over every run |
| `MeshRuns.ChokingPeerDrains` | crates/unstation-core/src/node.rs:1409-1418 | once the request timeout has passed and a tick fired, a peer still choking us owes nothing and is billed for nothing |
| `MeshChoke.StepCalm` | crates/unstation-core/src/node.rs:716-851 | no event but its own unchoke or departure ends a peer's choking or adds to what it owes |
| `MeshRuns.NonViewerChokesExactly` | crates/unstation-core/src/node.rs:566-572 | over every run a node that is no longer a viewer chokes exactly the peers it choked in its last moment as one and that have not left since |
| `MeshRuns.NeverViewerNeverChokes` | crates/unstation-core/src/node.rs:970-973 | a node that has never been a viewer chokes nobody |
| `MeshChoke.StepFlag` | crates/unstation-core/src/node.rs:568-600 | but for a viewer's ticks, only a peer's departure changes whether we choke it |
| `MeshExamples.SeedCanChoke` | crates/unstation-core/src/node.rs:824-830 | a run in which a seed chokes a peer, through a change of role |
| `MeshWindow.CursorKeepsUp` | crates/unstation-core/src/node.rs:891-921 | the cursor never goes back or behind the player, a live seed sits at the edge, a live viewer within a window of it, and a viewer within reach follows its player alone |
| `MeshOutcomes.PruneExactly` | crates/unstation-core/src/node.rs:930-951 | a live node that does not publish forgets exactly what lies a window below the play head or the newest segment held, whichever is less: held segments, ids and store, with a floor that never falls |
| `MeshRuns.ChokesUsExactly` | crates/unstation-core/src/node.rs:1409-1418 | over every run, while a peer stays in the table it is held to choke us exactly when it did before or has said so since and has not taken it back after |
| `MeshEffects.StepTells` | crates/unstation-core/src/node.rs:1282-1454 | one event changes a peer's choking exactly when it says so while unbanned; its own message does exactly what it says: a have adds one segment, a buffer map replaces them, a pong blends a round-trip sample, a want queues what is new until 64 wait |
| `MeshEffects.SubscribersExactly` | crates/unstation-core/src/node.rs:1419-1426 | a peer becomes a subscriber exactly by saying so, and stops being one exactly by saying so, leaving or being banned |
| `MeshEffects.TargetsExactly` | crates/unstation-core/src/node.rs:1707-1738 | a push is meant for exactly the subscribers we do not choke that are not known to hold the segment, each once |
| `MeshEffects.PushExactly` | crates/unstation-core/src/node.rs:1707-1738 | it reaches exactly the first targets the tokens pay for, at the segment's size each; without a meter, all of them |
| `MeshEffects.ServePeerExactly` | crates/unstation-core/src/node.rs:968-1034 | a choked peer's queue waits untouched; an unchoked one is served from the front, each item while the allowance of 256 KiB lasts and the tokens pay for it, and the first that fails either stops it |
| `MeshEffects.TickTells` | crates/unstation-core/src/node.rs:887-1240 | a tick leaves what peers told us; queues only drain, not at all for a peer we choke; and a viewer's review that is due chokes exactly the peers not chosen |
| `MeshOutcomes.RefillExactly` | crates/unstation-core/src/node.rs:953-961 | the refill adds budget / 8 bytes per second up to the larger of half a second's worth and two segments |
| `MeshOutcomes.RefillComposes` | crates/unstation-core/src/node.rs:953-961 | however time is cut into ticks, an idle meter fills the same |
| `MeshOutcomes.ViewsExactly` | crates/unstation-core/src/engine.rs:55-85 | the picker weighs exactly the unbanned peers, an unmeasured one at 5 Mbit/s and 80 ms |
| `Unchokes.SelectExactly` | crates/unstation-core/src/node.rs:182-209 | a review chooses everyone while there are slots for all, otherwise the best peers for the regular slots and exactly one of the others; no one left out is better than one with a regular slot |
| `Unchokes.RankedSorts` | crates/unstation-core/src/node.rs:193-201 | ranking loses nobody, invents nobody and puts nobody before a better peer: by throughput for a viewer, by distance otherwise |
| `Unchokes.NobodyIsStarved` | crates/unstation-core/src/node.rs:202-207 | while the table stays, everyone is served within twice as many reviews as there are peers without a regular slot, even across a wrap of the 64-bit turn counter |
| `Unchokes.ReviewServesTheBest` | crates/unstation-core/src/node.rs:568-600 | a viewer's due review leaves exactly the chosen peers served: everyone up to five, otherwise the four that gave most and one other |
| `MeshActor.MeshNode.constructor` | crates/unstation-core/src/node.rs:450-500 | a fresh actor is the start of a run: `Valid` holds with no events |
| `MeshActor.MeshNode.OnEvent` | crates/unstation-core/src/node.rs:716-851 | handling an event extends the object's run by one step of the step function, and the object then has every invariant of reachable states: exact request and buffer accounts, a sound window and conduct record, nothing stale after a tick, single delivery while on time |
| `MeshActor.MeshNode.ClearPending` | crates/unstation-core/src/node.rs:1551-1568 | refines `MeshState.ClearPending` and returns the cleared primary |
| `MeshActor.MeshNode.RemoveReasm` | crates/unstation-core/src/node.rs:1573-1577 | drops one slot and returns its bytes |
| `MeshActor.MeshNode.RemoveReasms` | crates/unstation-core/src/node.rs:1610-1614 | dropping slots one at a time returns the sum of their bytes |
| `MeshActor.MeshNode.Penalize` | crates/unstation-core/src/node.rs:1584-1623 | decay, strike, ban on crossing the floor, and the banned peer's slots and subscription gone |
| `MeshActor.MeshNode.PushToSubscribers` | crates/unstation-core/src/node.rs:1707-1738 | pushes in order to unchoked subscribers lacking the segment until the tokens run out |
| `MeshActor.MeshNode.DeliverVerified` | crates/unstation-core/src/node.rs:1657-1667 | store, count, mark, play, reshare |
| `MeshActor.MeshNode.AcceptSegment` | crates/unstation-core/src/node.rs:1628-1654 | releases the asked peers, samples throughput only for the asked peer, heals, delivers |
| `MeshActor.MeshNode.TryVerifyPending` | crates/unstation-core/src/node.rs:1683-1702 | a parked segment is delivered, refused and charged, or dropped |
| `MeshActor.MeshNode.ApplyEdge` | crates/unstation-core/src/node.rs:868-873 | records the id, raises the head, tries the parked bytes |
| `MeshActor.MeshNode.OnSegmentData` | crates/unstation-core/src/node.rs:1468-1544 | gate, buffer, and on completion verify or park |
| `MeshActor.MeshNode.OnEdge` | crates/unstation-core/src/node.rs:1430-1449 | verify, deduplicate, apply |
| `MeshActor.MeshNode.OnInbound` | crates/unstation-core/src/node.rs:1282-1454 | dispatch of every message; a banned peer's bytes do nothing |
| `MeshActor.MeshNode.EnqueueWants` | crates/unstation-core/src/node.rs:1302-1329 | bounded, duplicate-free serve queue; oversized wants are abuse |
| `MeshActor.DropRequestsTo` | crates/unstation-core/src/node.rs:755-772 | the promotion loop computes exactly the surviving primaries and hedges |
| `MeshActor.MeshNode.OnPeerDisconnected` | crates/unstation-core/src/node.rs:748-777 | everything keyed by the peer is gone; hedges are promoted |
| `MeshActor.MeshNode.OnSegmentProduced` | crates/unstation-core/src/node.rs:779-803 | a produced segment is kept, recorded, marked seen by a signer and pushed |
| `MeshActor.MeshNode.OnFallbackDone` | crates/unstation-core/src/node.rs:1264-1280 | a floor result is delivered only if missing locally and matching its id |
| `MeshActor.MeshNode.PruneWindow` | crates/unstation-core/src/node.rs:930-951 | one floor for store, local map and ids, anchored at what was delivered |
| `MeshActor.Drain` | crates/unstation-core/src/node.rs:976-1033 | the per-peer serve loop: memory and disk costs, the tick allowance and the tokens |
| `MeshActor.MeshNode.ServeQueues` | crates/unstation-core/src/node.rs:968-1034 | all peers in table order |
| `MeshActor.MeshNode.ExpireRequests` | crates/unstation-core/src/node.rs:1037-1050 | stale requests are cleared, their slots dropped, their peers charged |
| `MeshActor.MeshNode.SweepReassembly` | crates/unstation-core/src/node.rs:1055-1065 | slots past their deadline go, with their bytes |
| `MeshActor.MeshNode.DropBehindPlay` | crates/unstation-core/src/node.rs:1069-1079 | parked segments behind playback go, with their bytes |
| `MeshActor.MeshNode.OnTick` | crates/unstation-core/src/node.rs:887-1240 | the whole tick |
| `Gossip.AppliedAtMostOnce` | crates/unstation-core/src/node.rs:1430-1449 | over every run of the network each node applies and relays the edge at most once, whatever is lost, repeated or injected; a node that has seen it recorded the publisher's id and, while chain edges for the segment agree, has it on record or has pruned past it; its sends stay within its links |
| `Gossip.UnsignedIsNeverApplied` | crates/unstation-core/src/node.rs:1438-1442 | a delivery changes its node only for the one id the publisher signed for that segment of that stream |
| `Gossip.FloodReachesEveryone` | crates/unstation-core/src/node.rs:790-800 | without loss, once nothing is in flight every node joined to the publisher by key-holding nodes that have not banned their predecessor has seen the edge and, while chain edges for the segment agree, holds its id or has pruned past it |
| `Gossip.VerifiedIsPublished` | crates/unstation-core/src/node.rs:156-163 | whatever verifies for the segment is the id published for it, because the payload binds stream, segment and id |
| `Gossip.StepHolds` | crates/unstation-core/src/node.rs:868-873 | no step makes a node that has seen the edge lose the id |
| `Gossip.FloodIsBounded` | crates/unstation-core/src/node.rs:878-885 | all announcements sent fit one per directed link plus one per publisher link and re-announcement; sent plus injected equals in flight plus delivered plus lost |
| `Gossip.TakeEffect` | crates/unstation-core/src/node.rs:1430-1449 | a delivery is all or nothing, and only ever the publisher's id |
| `Gossip.StepFlows` | crates/unstation-core/src/node.rs:878-885 | no lossless step lets the flood stall across a link |
| `MeshSteady.EverydaySteady` | crates/unstation-core/src/node.rs:1083-1086 | every other event of a node keeps its links, trust anchor, bans and, within the dedup horizon, its memory of the edge |
| `Wire.EdgePayloadBinds` | crates/unstation-core/src/node.rs:156-163 | one signature covers one (stream, segment, id) |
| `Reassembly.AddKeepsOk` | crates/unstation-core/src/reassembly.rs:29-46 | no chunk writes past the segment or buffers more than its size, and the reported gain is exact |
| `Reassembly.BoundCheckExactness` | crates/unstation-core/src/reassembly.rs:31 | the saturating bound check is exact exactly when the announced size is below `u32::MAX` |
| `Reassembly.CompleteSlicesAssemble` | crates/unstation-core/src/reassembly.rs:54-75 | a complete set of true slices assembles to exactly the segment |
| `Reassembly.CoverReaches` | crates/unstation-core/src/reassembly.rs:54-63 | completeness leaves no byte uncovered |
| `Reassembly.Reassembler.Add` | crates/unstation-core/src/reassembly.rs:29-46 | refines the value model and keeps the accounting |
| `Reassembly.Reassembler.IsComplete` | crates/unstation-core/src/reassembly.rs:54-63 | gap-free from zero to the announced size, both ways |
| `Reassembly.Reassembler.Assemble` | crates/unstation-core/src/reassembly.rs:66-75 | the chunks in offset order, or nothing when incomplete |
| `Reassembly.Walk` | crates/unstation-core/src/reassembly.rs:54-63 | the ordered walk stops at the first gap |
| `Reassembly.JoinChunks` | crates/unstation-core/src/reassembly.rs:66-75 | concatenation in offset order |
| `Framing.FrameSegmentData` | crates/unstation-core/src/node.rs:231-244 | the hand-built frame is the derived encoding byte for byte |
| `Framing.ChunkRoundTrip` | crates/unstation-core/src/protocol.rs:33-39 | decoding an encoded chunk message gives it back |
| `Framing.CompactRoundTrip` | crates/unstation-core/src/node.rs:241 | every length below 2^32 survives its compact form |
| `Framing.SendSegment` | crates/unstation-core/src/node.rs:214-224 | one frame per 16 KiB in order, each decoding to its chunk |
| `Framing.AnyOrderReassembles` | crates/unstation-core/src/reassembly.rs:29-75 | chunks in any order with any duplicates complete exactly when every distinct chunk is in, and yield the segment |
| `Framing.SentSegmentArrives` | crates/unstation-core/src/node.rs:214-244 | from wire to segment: the frames rebuild the segment exactly when each has arrived at least once |
| `Framing.FrameBytes` | crates/unstation-core/src/node.rs:231-244 | one frame byte by byte: tag, little-endian fields, compact length, chunk |
| `BufferMaps.SetIsInsertion` | crates/unstation-core/src/buffermap.rs:43-53 | `set` adds exactly one number, none below the base |
| `BufferMaps.PruneIsFilter` | crates/unstation-core/src/buffermap.rs:74-85 | `prune_below` drops exactly what lies below the floor; the base never moves back |
| `BufferMaps.HighestIsGreatest` | crates/unstation-core/src/buffermap.rs:62-65 | `highest` is the greatest member, none exactly when empty, for maps within the wire range |
| `BufferMaps.CountIsCardinality` | crates/unstation-core/src/buffermap.rs:55-57 | `count` is the number of segments held |
| `BufferMaps.WireRoundTrip` | crates/unstation-core/src/buffermap.rs:25-27 | encoding then decoding changes no answer |
| `BufferMaps.BufferMap.Has` | crates/unstation-core/src/buffermap.rs:34-41 | membership in the set |
| `BufferMaps.BufferMap.Set` | crates/unstation-core/src/buffermap.rs:43-53 | in-place insertion |
| `BufferMaps.BufferMap.PruneBelow` | crates/unstation-core/src/buffermap.rs:74-85 | in-place filter |
| `BufferMaps.BufferMap.Highest` | crates/unstation-core/src/buffermap.rs:62-65 | the last set bit, unless its number overflows |
| `SegmentStores.RunsAgreeWithMap` | crates/unstation-core/src/store.rs:60-90 | after any inserts and prunes, for any capacity, lookups answer as a plain map would |
| `SegmentStores.PruneStands` | crates/unstation-core/src/store.rs:115-130 | pruning forgets exactly what is below the floor and never unlinks a file a kept segment needs |
| `SegmentStores.RunsHoldNewest` | crates/unstation-core/src/store.rs:60-81 | after any inserts and prunes memory holds the `capacity` greatest numbers of the plain map, with their content; a store without disk answers for exactly those, so for the newest insert whenever it has capacity |
| `SegmentStores.InsertOrphanExactly` | crates/unstation-core/src/store.rs:60-72 | an insert leaves an orphan file exactly when it re-points a segment away from an id nothing else uses |
| `SegmentStores.RunsLeaveNoOrphan` | crates/unstation-core/src/store.rs:115-130 | no run that never relabels a segment leaves an orphan file |
| `SegmentStores.SegmentStore.Insert` | crates/unstation-core/src/store.rs:60-81 | refines the two-tier model and respects the memory capacity |
| `SegmentStores.SegmentStore.Get` | crates/unstation-core/src/store.rs:83-90 | memory first, then the file of the indexed id |
| `SegmentStores.LocateIsLookup` | crates/unstation-core/src/store.rs:100-112 | the tier reported without reading is the one a read would find, absent exactly for segments the map lacks |
| `SegmentStores.SegmentStore.PruneBelow` | crates/unstation-core/src/store.rs:115-130 | the unlinking loop keeps shared content |
| `Picker.PlanTick` | crates/unstation-core/src/picker.rs:118-197 | the two loops compute the plan, and every request in it is allowed |
| `Picker.PlanAsksOnlyWhatItMay` | crates/unstation-core/src/picker.rs:118-197 | only produced, unheld, in-window segments, only from holders |
| `Picker.PlanPerSegment` | crates/unstation-core/src/picker.rs:118-197 | at most two requests per segment, the second redundant |
| `Picker.ZonesAreIntervals` | crates/unstation-core/src/picker.rs:74-82 | zones are three consecutive intervals of the window |
| `Picker.ZonesExactly` | crates/unstation-core/src/picker.rs:74-82 | a segment is in the panic zone exactly when due within the horizon, and prefetched exactly when beyond it and more than two thirds of the window ahead |
| `Picker.ExpectedTimeMeans` | crates/unstation-core/src/picker.rs:89-95 | expected time is the transfer time of the peer's backlog plus one segment, plus the round trip, divided by a reputation held within 0.1 and 1: at full reputation that time itself, at reputation r it is 1/r times that |
| `Picker.WorseIsNeverFirst` | crates/unstation-core/src/picker.rs:97-106 | of two holders of a requested segment, one no better in reputation, throughput, backlog and round trip and worse in one of them within the clamps is never the first peer asked, whatever the zone |
| `Picker.PanicIsServedExactly` | crates/unstation-core/src/picker.rs:142-167 | a missing panic-zone segment has a peer for its main request exactly when some holder can deliver in time; otherwise the seed is asked, or else the floor, exactly where there is one; a redundant request is added exactly while there is another holder to ask |
| `Picker.PrefetchIsServedExactly` | crates/unstation-core/src/picker.rs:184-196 | a missing prefetch-zone segment is requested, of a fastest holder, exactly when one or two hold it |
| `Picker.UtilityMeans` | crates/unstation-core/src/picker.rs:108-113 | utility is the deadline weight over the time left plus the rarity weight over the holders, in multiplied-out form |
| `Picker.PanicIsServed` | crates/unstation-core/src/picker.rs:142-167 | every missing panic-zone segment somebody holds is requested from a holder of minimal expected time |
| `Picker.MidIsServedExactly` | crates/unstation-core/src/picker.rs:168-183 | a missing mid-zone segment somebody holds is requested, from a fastest holder, exactly when its draw is within its share of the best utility raised to beta; the best is at least the smallest positive number |
| `Picker.StrongestMidIsServed` | crates/unstation-core/src/picker.rs:168-183 | a mid-zone segment of maximal utility somebody holds is requested whatever the draw, if that utility is at least the smallest positive number |
| `Calendar.DaysAdvance` | crates/hls-server/src/lib.rs:206-226 | successive day numbers give successive valid Gregorian dates |
| `Calendar.CivilIsInverse` | crates/hls-server/src/lib.rs:206-226 | the date computed for a day has that day number, counted independently by years and months |
| `Calendar.EveryDateIsReached` | crates/hls-server/src/lib.rs:206-226 | every valid date from the epoch on is the date of its day number |
| `Calendar.UtcRoundTrip` | crates/hls-server/src/lib.rs:206-226 | date and time of day determine the millisecond they came from, every field in range |
| `Hls.EveryWindow` | crates/hls-server/src/lib.rs:137-186 | over every in-order run the window is a tail of whole parents, and after a push it is within its cap or holds only the open parent |
| `Hls.ParentOpensExactly` | crates/hls-server/src/lib.rs:141-162 | over every run, whatever is fed in whatever order: a push adds one part with the fragment's own bytes, keyframe flag and duration, under parent 0 if it is the first since a reset, under the next parent if the stream has no parts or the fragment parsed as a keyframe, and under the parent of the push before it otherwise |
| `Hls.EvictionIsNeeded` | crates/hls-server/src/lib.rs:164-186 | over every run a push drops whole parents only, oldest first, and the last one to go only because the window was over its cap with it; then the window is within its cap or begins with the open parent |
| `Hls.ReadyExactly` | crates/hls-server/src/lib.rs:494-496 | over every in-order run a blocking reload may answer exactly when a later parent has begun or the part asked for was pushed |
| `Hls.RetainedParentsAreWhole` | crates/hls-server/src/lib.rs:164-186 | a listed parent holds exactly the parts ever pushed under it |
| `Hls.ListedParentsAreContiguous` | crates/hls-server/src/lib.rs:137-186 | listed parents are the range from the media sequence to the open parent |
| `Hls.ClosedSegmentsNeverChange` | crates/hls-server/src/lib.rs:164-186 | a closed segment still listed later has the same parts, byte for byte |
| `Hls.ClosedDurationExactly` | crates/hls-server/src/lib.rs:246-249 | and it is announced with the same duration exactly when the nominal part duration is unchanged or none of its parts needs it |
| `Hls.ConfigureChangesDuration` | crates/hls-server/src/lib.rs:106-115 | the reconfiguration that changes an announced duration |
| `Hls.MediaLawExactly` | crates/hls-server/src/lib.rs:164-186 | for a part pushed in any order, the media sequence rises by exactly the number of removed parents if and only if the part does not come to stand before the oldest parent left, unless it belongs to it |
| `Hls.MediaStaysExactly` | crates/hls-server/src/lib.rs:137-160 | below the cap, in closed form: the media sequence stays if and only if the part is not the earliest or belongs to the earliest parent |
| `Hls.PushMovesEdgeExactly` | crates/hls-server/src/lib.rs:198-202 | for a part pushed in any order, the live edge moves forward if and only if the part is the newest, is no keyframe of a low-latency stream, or lands inside an open parent that already fills the window |
| `Hls.AnyOrderKeepsWhole` | crates/hls-server/src/lib.rs:164-186 | over every run in whatever order parts arrive, every listed parent holds exactly what was ever pushed under it, and after a push the window is within its cap or begins with the open parent |
| `Hls.AnyOrderClosedNeverChange` | crates/hls-server/src/lib.rs:164-186 | in whatever order parts arrive, a closed segment never changes while it stays listed |
| `Hls.LateKeyframeBreaksTheList` | crates/hls-server/src/lib.rs:137-186 | the witness: a late keyframe moves the media sequence with nothing removed |
| `Hls.MediaSequenceCountsRemovals` | crates/hls-server/src/lib.rs:266 | the media sequence never falls and rises by one per removed parent |
| `Hls.PushMovesEdge` | crates/hls-server/src/lib.rs:198-202 | every push moves the live edge strictly forward |
| `Hls.ReadyStaysReady` | crates/hls-server/src/lib.rs:494-496 | a blocking reload that could answer still can, until a reset |
| `Hls.PlaylistListsWholeParents` | crates/hls-server/src/lib.rs:251-264 | the playlist's groups are the parents in order, each with all its parts in order |
| `Hls.HlsSink.constructor` | crates/hls-server/src/lib.rs:85-100 | a valid, empty window |
| `Hls.HlsSink.PushSegment` | crates/hls-server/src/lib.rs:137-186 | the eviction loop computes the push; in order, the sink stays valid: the part joins the parent it should, the window is a tail of whole parents within the cap or down to the open one, and the edge moves forward |
| `Hls.HlsSink.Edge` | crates/hls-server/src/lib.rs:198-202 | newest parent and its newest part's index |
| `Hls.HlsSink.LlPlaylist` | crates/hls-server/src/lib.rs:246-305 | groups, media sequence and next part; the announced targets are the least that bound every listed part and parent |
| `Reactor.ReactorIsSound` | crates/transport-libdc/src/lib.rs:462-727 | over every run: the counter is the number of announced peers; connects and disconnects strictly alternate, connect first; orphans belong to unconnected peers; a peer is announced exactly while both its channels are open; no candidate is lost, reordered or kept once the remote description is set; chunks leave in the order submitted; the backlog is counted and within its cap or a single chunk |
| `ReactorRuns.AnnouncedExactly` | crates/transport-libdc/src/lib.rs:663-692 | over every run, for a connection alive since the command that created it: it is announced exactly when both channels have opened since; what leaves or waits is drawn in order from what was submitted since; and candidates early and late are all applied in order once the remote description is set, all waiting before |
| `ReactorRuns.NoticesExactly` | crates/transport-libdc/src/lib.rs:663-723 | a peer is reported connected by exactly the command that opens its second channel, and disconnected by exactly the one that ends a fully open connection; no other command but shutdown reports anything |
| `ReactorRuns.TableExactly` | crates/transport-libdc/src/lib.rs:476-569 | a peer enters the table exactly by a dial, or an offer accepted while there is room, and leaves it exactly by a close, a terminal failure or shutdown; accepting never exceeds the limit |
| `ReactorRuns.OthersUnmoved` | crates/transport-libdc/src/lib.rs:462-727 | a command about one peer leaves every other connection and its waiting candidates alone |
| `ReactorRuns.EarlyCandidatesWait` | crates/transport-libdc/src/lib.rs:585-592 | candidates that come before a connection wait in order until it is created or its peer removed |
| `ReactorRuns.ChunkGoesExactly` | crates/transport-libdc/src/lib.rs:594-634 | a chunk goes straight out exactly when its channel is there, nothing waits and the buffer is below 64 KiB; else it joins the end of the queue, whose oldest chunks make way, no more of them than must; without the channel it is discarded |
| `ReactorRuns.DrainStopsExactly` | crates/transport-libdc/src/lib.rs:636-654 | a drain hands over chunks from the front while each look finds the buffer below the target, and stops at the first that does not or at the end |
| `Reactor.BacklogIsBounded` | crates/transport-libdc/src/lib.rs:606-634 | with every chunk within the cap so is every backlog |
| `Reactor.SendSound` | crates/transport-libdc/src/lib.rs:594-634 | a chunk goes straight out, queues behind all others, or is discarded with its channel missing |
| `Reactor.ReleaseKeeps` | crates/transport-libdc/src/lib.rs:636-654 | draining moves chunks from queue to channel in order, counted exactly |
| `Reactor.DrainedAlternates` | crates/transport-libdc/src/lib.rs:271-287 | shutdown disconnects each announced peer once |
| `Reactor.ReactorLoop.Handle` | crates/transport-libdc/src/lib.rs:462-727 | the command handler computes the step function and keeps the run invariant |
| `Reactor.ReactorLoop.SendOnBulk` | crates/transport-libdc/src/lib.rs:606-634 | the drop-oldest loop |
| `Reactor.ReactorLoop.DrainBulk` | crates/transport-libdc/src/lib.rs:636-654 | the paced release loop |
| `Reactor.ReactorLoop.DropConnection` | crates/transport-libdc/src/lib.rs:701-723 | close and terminal failure |
| `Reactor.ReactorLoop.ShutDown` | crates/transport-libdc/src/lib.rs:271-287 | the drain loop |
| `Policy.VictimIsIdlest` | crates/unstation-node/src/policy.rs:170-177 | the victim is unpinned, has no peers, and none such idled longer; there is one whenever any stream qualifies |
| `Policy.AdmissionIsSafe` | crates/unstation-node/src/policy.rs:152-178 | admission respects the publisher cap and the capacity and displaces only an idle unpinned stream |
| `Policy.SplitFitsExactly` | crates/unstation-node/src/policy.rs:182-196 | the even split fits the total exactly when the floor for every serving stream does |
| `Policy.WithinCapacityFits` | crates/unstation-node/src/policy.rs:182-196 | within capacity the serving streams' budgets fit the total |
| `Supervisor.BusyStreamsLeaveOnlyByStalling` | crates/unstation-node/src/supervisor.rs:238-268 | over every run a stream that reports peers is removed exactly by a sweep that finds it unpinned and stalled: no recruitment displaces it and no release ends it |
| `SupervisorRuns.SweepExactly` | crates/unstation-node/src/policy.rs:119-140 | a sweep ends a stream exactly when it is unpinned and stalled, released and a minute idle, or idle for the configured time; it parks exactly the others idle for the shorter time, and runs the idle clocks on |
| `SupervisorRuns.IdleStreamsEnd` | crates/unstation-node/src/supervisor.rs:238-268 | over every run an unpinned stream, neither stalled nor released, that nobody has watched or asked for since its idle clock started is ended by a sweep exactly when the configured time has passed |
| `SupervisorRuns.RefreshExactly` | crates/unstation-node/src/supervisor.rs:182-197 | recruiting a hosted stream clears its mark, restarts its idle clock if it runs, and changes nothing else |
| `SupervisorRuns.RecruitExactly` | crates/unstation-node/src/supervisor.rs:199-233 | a new stream ends up hosted exactly when its publisher is below its cap, there is room or an idle unpinned stream to make it, and its worker starts; at most one stream makes way, and only when the table is full |
| `SupervisorRuns.LongestIdleMakesRoom` | crates/unstation-node/src/policy.rs:170-177 | the stream that makes way is unpinned, without peers, and has idled at least as long as any other such |
| `SupervisorRuns.EveryShareIsFair` | crates/unstation-node/src/policy.rs:182-196 | over every run, after every rebalance each of the k streams with peers may spend the greatest b with b * k within the total, or the floor if that is more, and every other stream the floor |
| `SupervisorRuns.CapacityMeans` | crates/unstation-node/src/policy.rs:61-63 | a number of streams is within capacity exactly when the operator allows as many and the budget carries them at the floor |
| `Supervisor.MarksLastExactly` | crates/unstation-node/src/supervisor.rs:182-197 | over every run a hosted stream bears a release mark exactly when it was marked or released by its owner with no recruitment of it, by anyone, after |
| `Supervisor.MarkedExactly` | crates/unstation-node/src/supervisor.rs:162-197 | the same for one step |
| `Supervisor.StrangerClearsMark` | crates/unstation-node/src/supervisor.rs:182-197 | a run in which a stranger's recruitment clears the mark the owner's release set |
| `Supervisor.ReleaseSparesTheBusy` | crates/unstation-node/src/policy.rs:128-130 | a sweep judges a stream that has not idled for the short limit the same, released or not |
| `Supervisor.Relay.constructor` | crates/unstation-node/src/supervisor.rs:81-104 | the pinned streams, sharing the total at the floor or above, with the run invariant |
| `Supervisor.Relay.OnRecruitment` | crates/unstation-node/src/supervisor.rs:182-233 | refresh, or admission with eviction, spawn and rebalance, keeping the run invariant |
| `Supervisor.Relay.SweepOnce` | crates/unstation-node/src/supervisor.rs:238-271 | judge, park or wake, evict, rebalance, keeping the run invariant and the serving streams' budgets within the total |
| `Supervisor.SupervisorIsSafe` | crates/unstation-node/src/supervisor.rs:155-271 | over every run pins are never removed, no publisher exceeds its cap, and streams never outnumber pins or capacity, whichever is more |
| `Supervisor.OnlyOwnersRelease` | crates/unstation-node/src/supervisor.rs:162-181 | a stream is only marked released by a release its own publisher sent |
| `Supervisor.BumpedIsIdle` | crates/unstation-node/src/supervisor.rs:201-215 | a recruitment evicts at most one stream, unpinned and without peers |
| `Supervisor.BudgetsFitTheTotal` | crates/unstation-node/src/supervisor.rs:351-361 | while the pins fit the capacity every rebalance gives the serving streams at most the total |
| `Supervisor.RebalanceAssigns` | crates/unstation-node/src/supervisor.rs:351-361 | after a rebalance every stream runs on the budget the policy names for it |
| `Supervisor.Relay.CollectViews` | crates/unstation-node/src/supervisor.rs:316-348 | one pass rolls the idle clocks and builds the views |
| `Supervisor.Relay.Rebalance` | crates/unstation-node/src/supervisor.rs:351-361 | the assignment loop |

## Left out

- Framing.ChunkRoundTrip: covers the `SegmentData` variant only; the other message variants are modelled already decoded, because their codecs add only easy round trips.
- Hls.EveryWindow: needs pushes in increasing sequence order between resets; the mesh node may push out of order. What then still holds over runs is `Hls.AnyOrderKeepsWhole` and `Hls.AnyOrderClosedNeverChange`; `Hls.MediaLawExactly` and `Hls.PushMovesEdgeExactly` say which first such push breaks the list or the edge, and neither is stated for later ones.
- Hls.MediaLawExactly: speaks of a sequence number the window does not hold; pushing a held number again replaces that part, which single delivery rules out.
- MeshRuns.DeliveredAtMostOnce: excludes locally produced segments, which are stored without being played, and floor results below the prune floor; `MeshRuns.PlayedTwiceExactly` says exactly which runs play a segment twice.
- Gossip.FloodReachesEveryone: that a node still holds the id assumes that chain edges for the segment name it, since the code lets a later chain edge overwrite it.
- MeshRuns.UploadIsMetered: counts bytes served from memory and pushes; bytes read from disk off the actor loop are charged at the nominal segment size and not measured.
- Counters: `u64` and `usize` counters are unbounded naturals, except the saturating `u32` sums of the reassembler and the checked `u64` sum of the buffer map.
- Messages sent: hello, buffer-map advertisement, pings, presence and init-segment exchange produce no state the theorems speak about.
- Init segment, known-peer and presence directories, statistics, logging.
- Unchokes.ReviewServesTheBest: assumes the tick's choice is the one `select_unchokes` makes from the table; every other theorem about the node holds for any choice.
- Ban list: whether a connecting peer is refused is an input; expiry of bans is not modelled.
- Publisher preload constructors: runs start from a node with an id map and an empty store.
- Disk errors: files are written and read back faithfully.
- Playlist text, HTTP, the standard (non-low-latency) playlists and segment URLs.
- WebRTC, ICE, SCTP and the relay's workers: only their answers appear, as inputs.
- Chain clients, encryption, the desktop application, the segmenter and the network simulator.
