# A verified model of the AM game server

The program is a game server. A physics world moves hit points between players and food, a match
streams that world to remote clients packet by packet, and a transaction engine with one worker
thread per client carries the packets. This project models the three parts and the whole they
form, and proves what they keep. All paths below are relative to the root of the repository.

| file | what it models |
|---|---|
| `Crc.dfy` | the CRC step, against bit-serial division by the polynomial of RFC 1662, Appendix C |
| `HitPoints.dfy` | what contacts do to hit points, for arbitrary sequences of contacts |
| `World.dfy` | the engine's objects, updated in place, tied to `HitPoints` |
| `Packets.dfy` | request records, their batching, and what a client learns from them |
| `Match.dfy` | the match as a machine of stages, and the client's replica of it |
| `Game.dfy` | the game object, updated in place, tied to `Match` |
| `Responses.dfy` | the validator and the response store, with workers interleaving |
| `Connection.dfy` | one client: its worker as a step function with a program counter, its queue, its transactions |
| `Worker.dfy` | the same code as objects updated in place: a turn of the loop, the RTT log, `waitForFinish` |
| `Server.dfy` | all threads and both kinds of mutex as one step relation, and its inductive invariant |
| `Runs.dfy` | what holds in every run: places, signals, exact waits, limits, order, freedom from deadlock |
| `Scripts.dfy` | runs written out: what a worker gets done when its socket behaves, and calls carried through |
| `Removal.dfy` | what removing a client destroys under its worker |
| `Stranding.dfy` | when a queued transaction can still be attempted |
| `Lifetime.dfy` | whether a transaction is alive when a worker touches it |
| `EndToEnd.dfy` | the match running over the server, and agreement between engine and clients |
| `LateClient.dfy` | a run of the whole program in which a client that came late cannot follow the match |
| `Basics.dfy` | an option type and ascending sequences |

## How to read it

**Threads.** A step is one access to shared state by one thread: the game thread, the acceptor, or
a worker. Writes to a socket succeed or fail, reads succeed or fail, the deserializer delivers any
packets, and a wait expires whenever its signal is not there. `Server.Inv` holds in every reachable
state, with expiry. Transactions live in an arena per client and are never renumbered, so that what
became of each one can be said; removed clients keep their record for the same reason.

**The imperative parts.** The engine, the game, the response store, the worker's turn and
`waitForFinish` are classes and methods whose postconditions tie the new state to functions of the
old one. `Worker.TurnIsSteps` shows that a turn of the worker as its code does it is what the steps
of `Connection` do when no other thread comes in between.

**Assumption of the lifetime and end-to-end results.** No wait expires (`Lifetime.Patient`). An
expired wait lets the game thread destroy a transaction its worker still holds, and start the next
broadcast before the last one is written.

**Where the program does not do what one might expect.** Each is a theorem here.

- The worker reads `responseSize` once more after releasing the signal, and even when no wait expires
  the transaction can be destroyed by then. That look is the only touch for which this can happen
  (`Lifetime.OnlyTheSizeCheck`). It can happen to a request if and only if the request expects a
  response (`Lifetime.DeadTouchIff`, with a run for each such request in
  `Lifetime.ReadAfterDestruction`), and it does happen exactly when the transaction object is reset or
  destroyed between the release and the look (`Lifetime.DeadSinceDropped`).
- NEW_GAME numbers all clients, PLAYER_UPDATE only those that answered. The numbers agree exactly
  when no client answers after one that did not, and the announced number of players is right
  exactly when all answer (`Match.Numberings`).
- A client that connects after the food table has been broadcast is never sent it. What it is told is
  true. At a MOVE request it knows the food if and only if every food listed before it was inserted has
  died and been announced since, and the players if and only if there are none or a PLAYER_UPDATE has
  been broadcast since (`EndToEnd.EndToEndAgreement`). `LateClient.LateClientRun` is a run in which it
  knows neither.
- A transaction pushed onto the queue of an active client is attempted in some continuation if and only
  if the worker's last attempt before the push did not end the connection, by a failed write or an
  invalid response (`Stranding.PushedIsAttempted`). Otherwise it stays SCHEDULED for ever, so its wait can
  only end by expiring (`Runs.StrandedForever`); `Stranding.StrandingRun` is such a run.
- Removing a client destroys its queue and the queue's mutex before its thread is stopped and joined. The
  worker can use them after that if and only if its last attempt did not end the connection
  (`Removal.DeadQueueUsed`; `Removal.DeadQueueRun` is such a run, of `removeClient`). The program itself
  only removes inactive clients, and then nothing is used and no join waits (`Removal.SweepsAreSafe`).

## Model

| member | source | states |
|---|---|---|
| Crc.UpdateCrcIsEightShifts | src/amcom.c:17-21 | one call equals eight shift-and-xor steps with the reflected polynomial, least significant bit first, for every byte and register |
| Crc.FoldIsBitSerial | src/amcom.c:8-21 | folding any bytes from any start value is the bit-serial CRC of their bits |
| Crc.DifferenceOfFolds | src/amcom.c:17-21 | two CRCs differ by the CRC of the difference of their inputs |
| Crc.CollisionNeedsZero | src/amcom.c:17-21 | two equally long inputs have the same CRC if and only if their difference leaves a zero register |
| Crc.OddErrorsDetected | src/amcom.c:17-21 | inputs that differ in an odd number of bits never have the same CRC |
| Crc.BurstDetected | src/amcom.c:17-21 | inputs that differ only within sixteen consecutive bits, at any offset, never have the same CRC |
| HitPoints.ContactMoves | src/engine/engine.cpp:49-101 | a contact either changes nothing or kills exactly one living object and gives all it had to one living player, or loses it at the boundary |
| HitPoints.AbsorptionPartition | src/engine/engine.cpp:49-101 | after any contacts every object belongs to one group, and each living player's hit points are the sum of the initial ones of its group |
| HitPoints.BoundaryGroup | src/engine/engine.cpp:54-60 | what is lost at the boundary is exactly the food killed there |
| HitPoints.Conservation | src/engine/engine.cpp:49-101 | over any run the total is 2P + F minus the food lost at the boundary, and every value stays between 0 and 2P + F |
| HitPoints.FitsPackets | src/amgame.cpp:55-59 | with six food per player and at most eight players all hit points fit the packet fields |
| HitPoints.NoRevival | src/engine/engine.cpp:75-101 | the dead stay dead |
| HitPoints.EffectiveIsDeaths | src/engine/engine.cpp:75-101 | contacts that change something are counted by the objects they kill |
| HitPoints.Survival | src/engine/engine.cpp:86-101 | some player always lives, and at most F + P - 1 contacts ever change anything |
| HitPoints.PlayerRun | src/engine/engine.cpp:86-101 | a run of player contacts changes nothing, or leaves fewer living players |
| HitPoints.SweepFixedPoint | src/engine/engine.cpp:124-139 | a sweep leaves all as it is exactly when every touching living pair is equal, and else leaves fewer living players |
| HitPoints.SweepsStabilise | src/engine/engine.cpp:124-139 | repeating a sweep stabilises within P - 1 productive passes; if all players touch, the survivors are equal |
| World.HandleFoodPlayer | src/engine/engine.cpp:75-83 | a living player takes all of a living food; otherwise nothing changes |
| World.HandlePlayers | src/engine/engine.cpp:86-101 | the one with strictly more takes everything; equals and the dead change nothing |
| World.World.AddFood | src/engine/engine.hpp:75-78 | a fresh body of one hit point joins the list |
| World.World.AddPlayer | src/engine/engine.hpp:83-86 | a fresh body of two hit points joins the list |
| World.World.BeginContact | src/engine/engine.hpp:26-46 | the dispatch on both types, mirrored cases included, does to the objects in place what `HitPoints.Contact` says |
| World.World.ProcessOngoingContacts | src/engine/engine.cpp:124-139 | the loop over the contact list is the sweep over its touching player pairs, in order |
| World.World.Init | src/engine/engine.cpp:103-110 | every body is brought up to date, hit points unchanged |
| World.World.Step | src/engine/engine.cpp:112-121 | a step is the run of its new contacts, then the sweep, then every body is brought up to date |
| Packets.BatchingIsLossless | src/amgame.cpp:91-113 | batches are non-empty, within the limit, full but for the last, and concatenate to the list |
| Packets.BufferedIsChunks | src/amgame.cpp:104-110 | full batches sent plus a flushed rest are exactly the batches of the records so far |
| Packets.SendStep | src/amcom_transactions.h:120-126 | one more record through the buffer keeps that, full or not |
| Packets.HearFoodPackets | src/amgame.cpp:91-113 | hearing a batched table teaches the table |
| Packets.AnnouncedInPackets | src/amgame.cpp:158-179 | batching neither drops nor repeats an announcement |
| Match.NewlyDeadExactly | src/food.cpp:14-22 | the edge detector reports exactly the food that is dead and still shown, in index order |
| Match.SetUpInv | src/amgame.cpp:63-90 | the NEW_GAME phase establishes the invariant of the match |
| Match.CloseInv | src/amgame.cpp:91-205 | closing any stage keeps it, with the packets of the stage added to what was sent |
| Match.StepInv | src/amgame.cpp:61-212 | every call of `update` and `finish` keeps it |
| Match.ReplicaAgreement | src/amgame.cpp:91-181 | whenever a MOVE is requested, all packets broadcast so far reproduce the alive-table of the food and the hit points and positions of the players |
| Match.ExactlyOnceAnnouncement | src/amgame.cpp:158-179 | between any two calls the deaths announced are exactly the dead food, each announced once |
| Match.Numberings | src/amgame.cpp:66-76 | the two numberings of the players agree if and only if the answers form a prefix of the roster; the announced count is right if and only if all answer |
| Game.Food.UpdateSprite | src/food.cpp:14-22 | reports a death the first time it is seen and only then |
| Game.Game.SendFoodTable | src/amgame.cpp:91-113 | the loop broadcasts the batches of the food table, numbers in order |
| Game.Game.SendPlayerTable | src/amgame.cpp:116-137 | the loop broadcasts the batches of the player table |
| Game.Game.SendStandings | src/amgame.cpp:182-203 | the loop broadcasts the batches of the final standings |
| Game.Game.AnnounceDeaths | src/amgame.cpp:158-179 | the loop broadcasts the newly dead food and hides exactly those sprites |
| Game.Game.StepWorld | src/amgame.cpp:150-154 | five world steps |
| Game.Game.InviteClients | src/amgame.cpp:65-76 | one NEW_GAME per client, numbered over all clients; exactly those who answer become players |
| Game.Game.PositionFood | src/amgame.cpp:55-59 | one new living food at every place |
| Game.Game.StartMatch | src/amgame.cpp:63-90 | the NEW_GAME phase leaves the state `Match.SetUp` describes |
| Game.Game.NewMatch | src/amgame.cpp:25-36 | nothing but the phase changes; players and food of an earlier match stay |
| Game.Game.Update | src/amgame.cpp:61-208 | one call does to the objects, and broadcasts, what `Match.Updated` and `Match.UpdateSends` say, in every phase |
| Responses.AmcomTransaction.SaveResponse | src/amcom_transactions.h:58-61 | an entry that is there stays |
| Responses.AmcomTransaction.Validate | src/amcom_transactions.h:29-39 | accepts if and only if a delivered packet has the response type, and stores the first such payload unless there was one |
| Responses.StoreByClient | src/amcom_transactions.h:54-73 | however workers interleave, a client's entry is decided by its own packets, is the first accepted payload and is never overwritten |
| Responses.InterleavingIrrelevant | src/amcom_transactions.h:54-73 | so the store does not depend on the interleaving |
| Connection.StepInv | src/connection_client.cpp:64-146 | every step of the worker keeps the client's invariant |
| Connection.QueuePushedInv | src/connection_client.cpp:19-28 | so does a push by the game thread |
| Connection.OnePlace | src/connection_client.cpp:75-135 | every transaction is never queued, queued and SCHEDULED, in hand, or finished, and exactly one of these |
| Connection.SignalDiscipline | src/connection_client.cpp:90-133 | the signal is released at most once, after the verdict, and acquired at most once |
| Connection.StoppingTerminates | src/connection_client.cpp:75-146 | a worker asked to stop, or with a fatal attempt, gets closer to its return with every step |
| Connection.BrokenStays | src/connection_client.cpp:97-126 | after a failed write or an invalid response the worker attempts nothing more |
| Connection.DoneHasResponse | src/connection_client.cpp:101-107 | a DONE transaction that expected a response has one stored, that of the first accepted transaction of its object |
| Worker.ClientTransaction.WaitUntil | src/connection_client.h:56-64 | takes the signal if it is there, and succeeds exactly if it was there and the state is DONE |
| Worker.ConnectionClient.RunTransaction | src/connection_client.cpp:19-28 | schedules and queues on an active client, and refuses otherwise |
| Worker.ConnectionClient.NotifyRtt | src/connection_client.cpp:30-35 | the log keeps the ten newest times |
| Worker.ConnectionClient.GetRtt | src/connection_client.cpp:37-44 | the mean, in 32-bit arithmetic, or zero |
| Worker.ConnectionClient.Serve | src/connection_client.cpp:86-135 | state, signal, stop request, response and RTT log after one turn, for every outcome |
| Worker.ConnectionClient.Loop | src/connection_client.cpp:78-140 | the oldest transaction is taken and served: its state, signal and response size, the stop request, the stored response and the RTT log, for every outcome; the other transactions are untouched |
| Worker.TakesOldest | src/connection_client.cpp:75-84 | three undisturbed steps from the head of the loop take the oldest transaction off the queue, or change nothing if there is none |
| Worker.TurnIsSteps | src/connection_client.cpp:86-135 | a turn does to the transaction, the stop flag and the response store what the worker's steps do uninterrupted |
| Worker.LogIsNewest | src/connection_client.cpp:30-35 | after any number of turns the log holds the ten newest times |
| Worker.MeanIsBetween | src/connection_client.cpp:37-44 | the mean lies between the extremes unless the sum leaves 32 bits |
| Worker.WaitForFinish | src/connection_transaction.h:37-49 | takes every signal that is there and counts the DONE among them |
| Server.NextInv | src/connection_server.cpp:17-132 | every step of every thread keeps the server's invariant |
| Server.AcceptorMovesInv | src/connection_server.cpp:110-131 | the map stays within its limit although its size is read before the lock is taken |
| Server.JoinedInv | src/connection_server.cpp:53-70 | a client leaves the map only after its worker has returned |
| Runs.AcceptLimit | src/connection_server.cpp:119-127 | in every run the map never exceeds the limit |
| Runs.FreshIds | src/connection_server.cpp:126-127 | a step adds at most the next fresh number |
| Runs.NeverReused | src/connection_server.cpp:105-127 | a number that has left the map never comes back |
| Runs.EveryTransaction | src/connection_client.cpp:19-135 | in every run each transaction is in exactly one place, was pushed at most once, and has its signal in order |
| Runs.VerdictForever | src/connection_client.cpp:90-133 | once its signal is released a transaction keeps its verdict in every continuation, whatever any thread does |
| Runs.ResponseForever | src/amcom_transactions.h:58-61 | a stored response is never overwritten in any continuation |
| Runs.StrandedForever | src/connection_client.cpp:19-28 | what is queued for a worker that has returned, or whose last attempt ended the connection, stays queued and SCHEDULED in every continuation |
| Stranding.PushedIsAttempted | src/connection_client.cpp:19-28 | in every run, at the moment of a push: some continuation attempts the transaction if and only if the worker's last attempt did not end the connection |
| Stranding.StrandingRun | src/connection_client.cpp:91-97 | a run without expiries that queues a transaction nobody will ever serve |
| Runs.WaitIsExact | src/connection_transaction.h:37-49 | the result of a wait is the number of transactions acquired and DONE, each with no response expected or one accepted and stored, expiries allowed for |
| Runs.NoDeadlock | src/connection_server.cpp:17-132 | a blocked thread is at most two hops from one that can move |
| Runs.DeadlockFreedom | src/connection_client.cpp:75-139 | so no run deadlocks |
| Runs.WaitingForNobody | src/connection_server.cpp:17-132 | a thread that waits for no other can move, unless it has returned or nobody has called it |
| Runs.LockOrder | src/connection_client.cpp:75-139 | the game thread takes a queue only while it holds the map, and a worker in socket I/O or validation holds nothing |
| Runs.StopsWithin | src/connection_client.cpp:75-146 | in any continuation a worker asked to stop comes closer to its return with each of its steps, and nothing takes it back |
| Runs.JoinTerminates | src/connection_server.cpp:53-70 | a worker joined under the map's mutex is never blocked, and has returned in any continuation in which it makes eleven steps |
| Removal.DeadQueueUsed | src/connection_client.h:121-125 | in every run, when a client's queue is destroyed: some continuation uses the dead queue or its mutex if and only if the worker's last attempt did not end the connection; a worker that has returned made such an attempt |
| Removal.DeadQueueRun | src/connection_server.cpp:53-59 | a run in which `removeClient` makes a worker lock the mutex of a destroyed queue |
| Removal.SweepsAreSafe | src/connection_server.cpp:61-70 | in every run that only removes inactive clients no worker uses a dead queue, and whoever is joined has returned |
| Runs.FifoAndStop | src/connection_client.cpp:75-145 | attempts are a prefix of the scheduling order, nothing follows a fatal one, and nothing else stops a worker that was not evicted |
| Runs.NothingAfterFailure | src/connection_client.cpp:91-126 | in every continuation nothing more is written to a client after a failed write or an invalid response |
| Runs.NeverReactivated | src/connection_client.cpp:142-145 | a worker that has returned stays returned |
| Lifetime.AliveWhileInHand | src/connection_transaction.h:63-65 | without expiry a worker that pops, writes, reads, validates or releases finds its transaction alive |
| Lifetime.AliveInQueue | src/connection_transaction.h:63-65 | and so is everything still queued |
| Lifetime.ReadAfterDestruction | src/connection_client.cpp:123-124 | for every request that expects a response, a run without expiry in which the worker reads its destroyed transaction |
| Lifetime.OnlyTheSizeCheck | src/connection_client.cpp:123-124 | this happens at no other point |
| Lifetime.DeadTouchIff | src/connection_client.cpp:100-127 | some run without expiry touches a destroyed transaction of a request if and only if the request expects a response |
| Lifetime.ArrivesAlive | src/connection_client.cpp:122-124 | without expiry a worker that has released the signal stands before its last look with the transaction alive |
| Lifetime.DeadSinceDropped | src/connection_transaction.h:63-65 | from there on, until it looks, the transaction is dead exactly if its object has been reset or destroyed since |
| EndToEnd.ActInv | src/amgame.cpp:25-212 | every action of the whole system keeps its invariant |
| EndToEnd.NothingBehindIt | src/connection_transaction.h:37-49 | without expiry a worker that writes has nothing else queued |
| EndToEnd.WrittenIsSent | src/connection_server.cpp:17-33 | when a MOVE is written to a client, what it was written with that request, NEW_GAME aside, is exactly what was broadcast since it was inserted |
| EndToEnd.EndToEndAgreement | src/amgame.cpp:91-181 | in every run without expiry, whenever a worker writes a MOVE request all its client was told is true of the engine; it knows the food if and only if every food listed before it was inserted was announced dead only since and is dead now, and the players if and only if there are none or they were sent since; a client that missed nothing knows both, and has been told of each dead food exactly once |
| LateClient.LateClientRun | src/connection_server.cpp:119-127 | a run without expiry in which a MOVE request is written to a client that knows neither the food nor the players |
| EndToEnd.PlayersAreAudience | src/amgame.cpp:65-76 | every player was inserted before anything was broadcast, so it has missed nothing |
| EndToEnd.PlayersAnswered | src/amgame.cpp:69-74 | NEW_GAME makes a client a player if and only if its transaction was acquired, DONE and its response stored |

## Left out

- `AMCOM_Serialize` and `AMCOM_Deserialize` (src/amcom.c): their bodies are stubs. Packets are records, and the deserializer delivers any sequence of packets.
- Which bytes of a packet the CRC covers: the header file does not say.
- Box2D, velocities, angles and random placement: contacts are an arbitrary sequence, positions are whatever the physics reports, kept as reals and never computed with.
- The angle in a MOVE response (src/amgame.cpp:147-149): it only steers the physics.
- src/remote_connection.cpp, src/main.cpp, src/player.cpp and console output: not part of this model.
- Sockets, clocks, sleeps and `sock.accept`: outcomes of steps.
- The weak memory of a real machine: steps interleave, and unsynchronised flags such as `active` are read atomically. The RTT log is read by `getClients` without a lock; that race is not modelled.
- What a worker does with a queue after its destruction: it goes on as if the queue were still there, and only that it uses it is recorded. The RTT log and the time of disconnection are destroyed before the join as well; `notifyRtt` is not a step of its own in `Connection`.
- Wrap-around of the client counter: it is unbounded here.
- A second `newMatch` on the same game: the end-to-end results are about one match. `Game.NewMatch` and `Game.StartMatch` allow for players and food already there, `Match.MatchInv` and `EndToEnd` do not.
- `numberOfPlayers` and the client information of `getClients` other than the identifiers: printed only.
- The map of clients as an object updated in place: `Server` keeps it in the state of the step relation, since other threads run between any two accesses.
- `IdentifyTransaction`: never run by the program.
- Game.Game.Update: the answers to NEW_GAME and the physics come with the environment; that the answers are those of the transactions is `EndToEnd.PlayersAnswered`.
- Game.Game.InviteClients: the answers come as an argument, one for each client; that they are the results of waiting for the transactions is `EndToEnd.PlayersAnswered`.
- Game.Game.StartMatch: the roster and the answers come with the environment, as in `Game.Game.Update`.
- Game.Game.NewMatch: the removal of inactive clients is a call into the server (`EndToEnd.Act`, `Removal.SweepsAreSafe`), and the number of players is printed only.
- Worker.WaitForFinish: the signals are those present when the loop starts, so it says nothing of deadlines or of workers that release meanwhile; `Runs.WaitIsExact` covers both.
- `Transaction::getResponse` (src/connection_transaction.h:54-58): its body is a stub that gives an empty span.
