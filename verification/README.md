# Models and proofs for the Go practice services

Six pieces of the repository, modelled in Dafny 4.11 and proved correct where they are, with the exact
condition where they are not. `dafny verify dfyconfig.toml` checks everything.

| piece | modules | repository |
|---|---|---|
| Kafka offset-commit tracker | `OffsetTracker`, `CommitProtocol`, `CommitBounds`, `CommitFloor`, `CommitRegress`, `CommitDip`, `ConsumerRegistry` | `kafka-cdc/pkg/kafka`, and its twins `kafka/internal/consumer` and `kafka-outbox/internal/kafka/consumer` |
| Worker-sharded chat server | `ChatServer`, `Lists` | `chat/with-workers` |
| Spatial grid of the boids | `Steering`, `SpatialGrid`, `Flock`, `Lists` | `boids` |
| Rate limiter | `TokenBucket`, `Eviction` | `chat/ratelimiter` |
| Transactional outbox and inbox | `OutboxProtocol`, `OutboxRuns`, `OutboxServices` | `kafka-outbox/internal` |
| Ring buffer | `RingBuffer` | `chat/with-loop-per-client` |

**Offset tracker.** `OffsetTracker` gives the tracker as a value with its operations, and as the class
`PartitionState`, whose `FindLatestToCommit` is the loop that deletes settled entries as it scans.
`CommitProtocol` runs it against one partition of the broker: production, assignment (with or without the
committed offset read), delivery with gaps, handlers that settle each delivery once and at any time (late ones
from earlier sessions included), the two halves of a commit tick with the broker call between them, and
revocation, interleaved in any way. A commit call may be stored, refused, or stored and still return an error.
The main results are at-least-once delivery, the range the entries stay in, the lag that one undisturbed tick
leaves, and when commits can go backwards.

Commits never decrease unless an event loses track of the committed offset (`LosesTrack`): an assign whose
`Committed` call fails while a handler of a message more than one below that offset is still running, or a
stored commit whose reply is an error, if a smaller offset is still pending, in flight or left in the map, or if
the scan had drained the map. After each such event some continuation does commit less. Both directions are
proved for every reachable state (`CommitsNeverDecrease`, `LostTrackCanRegress`), with one run of each kind from
the beginning. When each delivery is settled in its own session, the committed offset falls by at most one over
a whole run, and it can fall exactly from the states `OnePast` describes. `ConsumerRegistry` is the consumer's
map of trackers with its rebalance callbacks, which block once a read lock has been leaked.

**Chat server.** The accept loop is the only goroutine that changes the server's state, so each message it
handles is one method call on aliased mutable objects. `Valid` says that each client is served by exactly the
worker its id hashes to, that rooms and clients agree both ways on who is where, and how many workers there
may be; every handler keeps it, through both rehash loops, except that joining a room panics for a client that
has already left. The sharded sends are then proved to reach each receiver of the flat sends exactly once.

**Boids.** Arithmetic is over the reals, `int(x)` truncates toward zero, and distances are compared squared.
The push between two boids that are too close, and the movement that results from the sums, are parameters:
the theorems hold whatever they are. A boid gathers the same sums from the three by three block as from all
boids exactly if its position is less than two cells left of or above the grid and less than one cell beyond
its far edges; further out it gathers nothing, not even from itself. `SEP_RADIUS` is 22, since `45 / 2` is an
untyped integer division.

**Rate limiter.** Time and tokens are reals; every call has two readings of the clock, as `refill` does. A
call is granted exactly if each window of calls that it closes has room for it, which gives the usual bound
on every window. Eviction is shown to be unobservable with the server's constants, and in general exactly if
a bucket cannot hold a whole token or refills completely within the inactivity limit.

**Outbox and inbox.** Any number of transactions run concurrently under read committed: rows written are
invisible until commit, keys of uncommitted rows block, and every transaction may be rolled back anywhere.
The classes in `OutboxServices` are the services' methods; each is proved to be a run of the protocol, and
its effect on the tables is stated outright. An empty list of ids makes the marking update fail
(`sqlx.In`), so a tick that sent nothing ends in a rollback. The inbox settles a message before its
transaction commits: `SettledIsSavedIff` says exactly in which runs a settled message always has its row.

**Ring buffer.** The ring is proved to return the most recent messages of the whole history of pushes. Its
replay from an offset does not meet its purpose: the search reads the same slot in every round, so it finds
the newest message or none, and reads an empty slot when there is one message in a larger ring.
`ReplayIsRightIff` says exactly when it returns the newer messages all the same.

## Model

| member | source | states |
|---|---|---|
| OffsetTracker.ScanHasClosedForm | kafka-cdc/pkg/kafka/partition-state.go:115-135 | for any tracker, in range or not: the scan stops at the least pending offset of its window and drops the window below it, else drops the whole window and chooses one past the greatest entry if that emptied a nonempty map, else `MaxReceived` |
| OffsetTracker.ScanOutcomeIsUnique | kafka-cdc/pkg/kafka/partition-state.go:115-136 | the closed form leaves one possible result and one possible remaining map |
| OffsetTracker.FindInRange | kafka-cdc/pkg/kafka/partition-state.go:102-137 | with entries between `LastCommited` and a different `MaxReceived`: least pending, else greatest key plus one, else `MaxReceived`; exactly the entries at or above the result stay |
| OffsetTracker.PartitionState.constructor | kafka-cdc/pkg/kafka/partition-state.go:28-46 | an empty map, `MaxReceived` at the start offset, `LastCommited` one below it, or -1 for a negative start |
| OffsetTracker.PartitionState.AppendMsgState | kafka-cdc/pkg/kafka/consumer.go:309-318 | the offset becomes pending, and `MaxReceived` rises to it if it was lower or missing |
| OffsetTracker.PartitionState.UpdateState | kafka-cdc/pkg/kafka/consumer.go:116-118 | exactly the entry of the offset takes the new state |
| OffsetTracker.PartitionState.FindLatestToCommit | kafka-cdc/pkg/kafka/partition-state.go:102-137 | the deleting loop does what the scan specifies and meets its closed form; an error leaves the map as it was |
| OffsetTracker.PartitionState.PublishCommitted | kafka-cdc/pkg/kafka/partition-state.go:81-85 | `LastCommited` is the committed offset, and `MaxReceived` is not below it |
| OffsetTracker.PartitionState.CommitTick | kafka-cdc/pkg/kafka/partition-state.go:66-94 | a tick publishes what it found if the broker accepted it, and otherwise keeps only the deletions |
| CommitProtocol.TrackerSteps | kafka-cdc/pkg/kafka/partition-state.go:81-85 | delivery, settling and publishing change exactly the tracker's fields that the consumer and the commit loop change, and a commit call changes none |
| CommitProtocol.FindIsSafe | kafka-cdc/pkg/kafka/partition-state.go:115-136 | whatever the scan chooses, every logged message below it is settled, stray entries included |
| CommitProtocol.StepIsSafe | kafka-cdc/pkg/kafka/partition-state.go:59-99 | every step of assign, delivery, settling, tick, commit, publish and revoke keeps the safety invariant |
| CommitProtocol.AtLeastOnce | kafka-cdc/pkg/kafka/partition-state.go:48-137 | in every run, each logged message below the broker's committed offset was delivered and settled in some session |
| CommitFloor.StepIsShaped | kafka-cdc/pkg/kafka/partition-state.go:59-99 | whatever lands in the tracker, every step keeps its shape: an attempt is at most one past `MaxReceived` and one below any pending entry it scans, and a pending entry has its handler running |
| CommitFloor.FindKeepsFloor | kafka-cdc/pkg/kafka/partition-state.go:102-137 | under a floor, a scan chooses no nonnegative offset below it, and leaves a tracker of which the same holds |
| CommitFloor.StepKeepsFloor | kafka-cdc/pkg/kafka/partition-state.go:59-99 | every step keeps a floor, whatever the broker replies, except a failed read that forgets it while a lower message may still be settled |
| CommitFloor.StepNeverRegresses | kafka-cdc/pkg/kafka/partition-state.go:73-85 | no step lowers the committed offset or leaves it other than as a floor, unless it loses track |
| CommitFloor.CommitsNeverDecrease | kafka-cdc/pkg/kafka/partition-state.go:66-94 | within and across sessions, no later commit is below an earlier one if no event loses track |
| CommitRegress.ExposedFalls | kafka-cdc/pkg/kafka/partition-state.go:115-136 | with a handler still running for a message below the committed offset that a scan will pass, some continuation commits less: deliver on, settle what is pending, let a refused commit drain the map, and settle late |
| CommitRegress.LostTrackCanRegress | kafka-cdc/pkg/kafka/consumer.go:121-133 | the converse: after any event of any run that loses track, some continuation commits less |
| CommitRegress.FailedReadRegresses | kafka-cdc/pkg/kafka/consumer.go:123-127 | a run from the beginning: two messages are committed, one handler of an earlier session still runs, the read fails, and less can be committed |
| CommitRegress.LostReplyRegresses | kafka-cdc/pkg/kafka/partition-state.go:73-79 | a run from the beginning: the first commit is stored, its reply is lost, and ticks alone commit one less |
| CommitDip.StepStaysTight | kafka-cdc/pkg/kafka/partition-state.go:59-99 | with each delivery settled in its own session, every step leaves the committed offset a floor, or a drained tracker one below it |
| CommitDip.CommitsFallByAtMostOne | kafka-cdc/pkg/kafka/partition-state.go:73-85 | under that condition, no later commit of any run is more than one below an earlier one, lost replies and failed reads included |
| CommitDip.CommitFallsIffOnePast | kafka-cdc/pkg/kafka/partition-state.go:73-85 | and from a reachable state some continuation commits less exactly if the broker's offset is past `MaxReceived`, or past the attempt under way, and the tracker has not been told |
| CommitBounds.RetryIsAtMostOneLower | kafka-cdc/pkg/kafka/partition-state.go:121-130 | after a failed commit the next attempt is the same or one lower, and when exactly it is lower |
| CommitBounds.FindStaysInRange | kafka-cdc/pkg/kafka/partition-state.go:102-137 | a scan keeps the session in range; its attempt is at most the next position and, with nothing pending, at least the last received offset |
| CommitBounds.StepStaysInRange | kafka-cdc/pkg/kafka/partition-state.go:68-94 | every step keeps the session's range invariant, also between find and publish |
| CommitBounds.TrackerStaysInRange | kafka-cdc/pkg/kafka/partition-state.go:68-94 | in every reachable session: entries lie in [`LastCommited`, `MaxReceived`], which is in order but for a fresh tracker without a start offset; a nonempty map holds the last received offset; an attempt is at most the next position, one past the last received |
| CommitBounds.QuietTickCatchesUp | kafka-cdc/pkg/kafka/partition-state.go:107-137 | with nothing pending, one undisturbed tick leaves tracker and broker at the last received offset or one past it, whatever failed before |
| CommitBounds.FirstTickCommitsEverything | kafka-cdc/pkg/kafka/partition-state.go:30-39 | when all that a new session has received is settled, its first tick commits one past the last received offset, so nothing is left uncommitted |
| ConsumerRegistry.RevokeIsPerPartition | kafka-cdc/pkg/kafka/consumer.go:181-218 | each revoked partition is committed where its own scan says, once, if that is not negative, and stays in the map only if the scan was skipped |
| ConsumerRegistry.KafkaConsumer.constructor | kafka-cdc/pkg/kafka/consumer.go:69-82 | no trackers and no partitions |
| ConsumerRegistry.AssignedStartsAt | kafka-cdc/pkg/kafka/consumer.go:129-158 | an assigned partition's tracker has an empty map, the last offset listed for it as `MaxReceived` and one less as `LastCommited`; -2 and -1 for a negative offset |
| ConsumerRegistry.UnassignedKeepsTracker | kafka-cdc/pkg/kafka/consumer.go:129-158 | a partition that is not listed keeps its tracker, or has none still |
| ConsumerRegistry.AssignStartsSession | kafka-cdc/pkg/kafka/consumer.go:121-149 | the callback's tracker for the group's committed offset, or for a failed read, is the one a session of the commit protocol starts with |
| ConsumerRegistry.KafkaConsumer.AssignPrtnCB | kafka-cdc/pkg/kafka/consumer.go:121-160 | blocks exactly if a read lock was leaked; otherwise each listed partition's tracker is empty and starts at the last offset listed for it, in the consumer's own map; at most one running loop per partition, and one for each that is assigned |
| ConsumerRegistry.KafkaConsumer.StopLoop | kafka-cdc/pkg/kafka/consumer.go:151-155 | the partition's loop has exited, and no tracker has changed |
| ConsumerRegistry.KafkaConsumer.StartLoop | kafka-cdc/pkg/kafka/consumer.go:156-157 | the new tracker replaces the old one and its loop runs |
| ConsumerRegistry.KafkaConsumer.Install | kafka-cdc/pkg/kafka/consumer.go:141-157 | one partition's tracker is replaced by a fresh one, the old loop having exited first |
| ConsumerRegistry.KafkaConsumer.RevokePrtnCB | kafka-cdc/pkg/kafka/consumer.go:179-218 | blocks exactly if a read lock was leaked and some tracker is to be removed; otherwise trackers left and offsets to commit are those of the per-partition specification, and the loops of all revoked partitions have stopped, also of those left behind |
| ConsumerRegistry.KafkaConsumer.StopAndFind | kafka-cdc/pkg/kafka/consumer.go:189-212 | the partition's tracker is removed exactly if its scan finds an offset, which is returned; removing it is where a leaked read lock blocks |
| ConsumerRegistry.KafkaConsumer.AppendMsgState | kafka-cdc/pkg/kafka/consumer.go:300-319 | only the delivered partition's tracker changes; a missing tracker is ignored |
| ConsumerRegistry.KafkaConsumer.UpdateState | kafka-cdc/pkg/kafka/consumer.go:102-119 | only the entry of the settled offset changes, in that partition's tracker; with no tracker there, a read lock is leaked |
| ChatServer.Worker.SendBroadcastMsg | chat/with-workers/workers.go:62-71 | each of the worker's clients but the sender, exactly once |
| ChatServer.Worker.SendRoomMsg | chat/with-workers/workers.go:27-35 | those of the members that the worker serves, in order |
| ChatServer.WSServer.constructor | chat/with-workers/chat-server-loop.go:190-217 | workers numbered by position, and the invariant |
| ChatServer.HashIsPolynomial | chat/with-workers/chat-server-loop.go:298-301 | the overflowing accumulator is the sum of the bytes, each times 31 to the number of bytes behind it, modulo 2 to the 32 |
| ChatServer.WSServer.GetWorker | chat/with-workers/chat-server-loop.go:297-306 | the worker at the id's hash modulo the number of workers |
| ChatServer.WSServer.AddClientToWorker | chat/with-workers/chat-server-loop.go:379-393 | client and worker point at each other, and the links of all others are as before |
| ChatServer.WSServer.RemoveClientFromWorker | chat/with-workers/chat-server-loop.go:395-409 | the client has no worker and no worker serves it |
| ChatServer.WSServer.RehashClient | chat/with-workers/chat-server-loop.go:241-245 | the client is served by the worker its id hashes to now, and by no other |
| ChatServer.WSServer.Rehash | chat/with-workers/chat-server-loop.go:240-246 | afterwards every client is served by exactly the worker its id hashes to |
| ChatServer.WSServer.ScaleUp | chat/with-workers/chat-server-loop.go:235-248 | one more worker, and the sharding invariant for the new size |
| ChatServer.WSServer.ScaleDown | chat/with-workers/chat-server-loop.go:261-274 | one worker fewer, serving nobody, and the sharding invariant for the new size |
| ChatServer.WSServer.CheckScaleUp | chat/with-workers/chat-server-loop.go:224-233 | when exactly a worker is added, and that the count stays bounded |
| ChatServer.WSServer.CheckScaleDown | chat/with-workers/chat-server-loop.go:250-259 | when exactly a worker is dropped, and that one always remains |
| ChatServer.WSServer.JoinServer | chat/with-workers/chat-server-loop.go:429-444 | the client is registered, the count and its peak are right, rooms are untouched, and the whole invariant holds, with or without scaling |
| ChatServer.WSServer.LeaveRooms | chat/with-workers/chat-server-loop.go:418-421 | the client is in no room, no other membership has changed, and its own map is nil |
| ChatServer.WSServer.Deregister | chat/with-workers/chat-server-loop.go:411-423 | the client is gone from the server, its worker and all rooms, and nobody else is |
| ChatServer.WSServer.LeaveServer | chat/with-workers/chat-server-loop.go:411-427 | every room keeps exactly its other members; the client is unregistered and in no room; the invariant after a possible scale-down, and when that happens |
| ChatServer.WSServer.JoinRoom | chat/with-workers/chat-server-loop.go:446-466 | the client is registered; the handler panics exactly if the client has left before; otherwise the room exists, its members are the earlier ones and this client, the client's own map gains exactly this room, all other rooms keep their members, and the invariant holds |
| ChatServer.WSServer.LeaveRoom | chat/with-workers/chat-server-loop.go:468-489 | exactly this membership ends, on both sides; a missing room changes nothing |
| ChatServer.WSServer.WorkerCountIsBounded | chat/with-workers/chat-server-loop.go:224-274 | in every reachable state there is a worker, and at most the larger of the initial count and 1 + (peak - 1) / 25; the count of active clients is right |
| ChatServer.WSServer.MembershipIsMutual | chat/with-workers/chat-server-loop.go:446-489 | in every reachable state a room has a client exactly if the client has the room, each pointing at the other |
| ChatServer.WSServer.ServesWhoHashesHere | chat/with-workers/chat-server-loop.go:297-306 | a worker serves exactly the registered clients whose id hashes to its position |
| ChatServer.WSServer.SendBroadcastMsg | chat/with-workers/chat-server-loop.go:564-574 | every registered client but the sender, exactly once |
| ChatServer.WSServer.SendBroadcastMsgWorkers | chat/with-workers/chat-server-loop.go:600-609 | every registered client but the sender is in exactly one worker's list, once, and nobody else is in any: the flat broadcast's receivers |
| ChatServer.WSServer.MembersAreRegistered | chat/with-workers/chat-server-loop.go:446-489 | whoever is in a room is registered, under its own id |
| ChatServer.WSServer.SendRoomMsg | chat/with-workers/chat-server-loop.go:491-512 | every member but the sender, exactly once, or nothing if the room does not exist |
| ChatServer.WSServer.SendRoomMsgWorkers | chat/with-workers/chat-server-loop.go:538-562 | every member of the room but the sender is in exactly one worker's list, once, and nobody else is in any: the flat room send's receivers |
| Steering.SumIgnoresOrder | boids/boid.go:43-56 | the sums depend only on which neighbours are listed how often |
| Steering.OnlyThoseThatCount | boids/boid.go:46-55 | dropping neighbours that contribute nothing does not change the sums |
| SpatialGrid.TruncatesTowardZero | boids/spriral_grid.go:37-38 | the conversion to an integer rounds toward zero |
| SpatialGrid.StoredNearby | boids/spriral_grid.go:36-52 | along an axis, a boid less than a cell away is stored, after truncation and clamping, within one column of the query's own, if the query is in reach |
| SpatialGrid.BlockHoldsAllThatCount | boids/spriral_grid.go:54-73 | from a position in reach, every boid that contributes is stored in the block that is searched |
| SpatialGrid.OutOfReachSeesNothing | boids/spriral_grid.go:63-65 | from a position out of reach, no boid is stored in the block |
| SpatialGrid.QueryAgainstScan | boids/spriral_grid.go:54-73 | the contributing ids of query and full scan agree as multisets exactly if the position is in reach |
| SpatialGrid.GridAgreesWithScan | boids/boid.go:43-56 | whatever the push, the sums and counts from the query equal those from all boids exactly if the position is in reach |
| Steering.OneNeighbour | boids/boid.go:44-55 | a boid at most 22 away contributes its push and one to the separation count, one less than 135 away its velocity, its position and one to the cohesion count, any other nothing |
| Steering.CohesionSums | boids/boid.go:51-53 | velocity sum, position sum and cohesion count range over exactly the neighbours more than 22 and less than 135 away |
| Steering.SeparationSums | boids/boid.go:46-49 | push sum and separation count range over exactly the neighbours at most 22 away |
| Flock.Boid.CalcAcceleration | boids/boid.go:36-56 | each of the five accumulators on its own: velocities and positions of those alongside, pushes of those too close, and the two counts |
| Flock.CellHolds | boids/spriral_grid.go:25-28 | a cell's list holds exactly the boids with its clamped column and row |
| Flock.SpiralGrid.constructor | boids/spriral_grid.go:12-23 | the fewest cells that cover the screen, all empty |
| Flock.SpiralGrid.GetCellIndex | boids/spriral_grid.go:36-52 | the clamped cell, always a valid index |
| Flock.SpiralGrid.Insert | boids/spriral_grid.go:25-28 | the id is appended to its cell, and no other cell changes |
| Flock.SpiralGrid.Clean | boids/spriral_grid.go:30-34 | every cell is empty |
| Flock.SpiralGrid.VisitCell | boids/spriral_grid.go:60-70 | exactly the boids stored in the cell are appended, none if it does not exist |
| Flock.SpiralGrid.GetNeighbours | boids/spriral_grid.go:54-73 | the buffer gains exactly the boids stored in the block, each once |
| Flock.QueriedSums | boids/game.go:106-111 | what a boid gathers from the query is what it gathers from all boids in reach, and nothing out of reach |
| Flock.Game.constructor | boids/game.go:63-72 | the grid's cells have the size of the cohesion radius |
| Flock.Game.Rebuild | boids/game.go:136-139 | every cell lists exactly its boids, in order of id |
| Flock.Game.Query | boids/game.go:141-145 | every boid's sums are those of the all-pairs scan in reach, nothing out of reach, all taken from the same positions |
| Flock.Game.Update | boids/game.go:133-152 | every boid moves by what it gathers from all boids' positions before the frame, though boids move one after another |
| TokenBucket.RateLimiter.constructor | chat/ratelimiter/ratelimiter.go:19-29 | a full bucket |
| TokenBucket.RateLimiter.Allow | chat/ratelimiter/ratelimiter.go:31-42 | granted exactly if, after refilling up to the first reading, capped, there is a whole token, which is then taken; the second reading is remembered |
| TokenBucket.RateLimiter.Refill | chat/ratelimiter/ratelimiter.go:44-50 | tokens accrue up to the first reading, capped, and the second reading is remembered |
| TokenBucket.TokensInRange | chat/ratelimiter/ratelimiter.go:44-50 | the tokens never leave [0, max] in any run |
| TokenBucket.TightestWindow | chat/ratelimiter/ratelimiter.go:31-50 | the tokens a call finds are exactly what its tightest window leaves |
| TokenBucket.GrantedIffEveryWindowHasRoom | chat/ratelimiter/ratelimiter.go:31-50 | a call is granted exactly if every window of calls that it closes has room for one more |
| TokenBucket.WindowBound | chat/ratelimiter/ratelimiter.go:31-50 | grants among calls i to j are at most max plus the rate times the time from the end of i to the start of j, from any bucket |
| Eviction.PerClientLimiter.constructor | chat/ratelimiter/ratelimiter.go:60-71 | no limiters |
| Eviction.PerClientLimiter.LimiterOf | chat/ratelimiter/ratelimiter.go:74-82 | the client's limiter, a full one if there was none; no other changes |
| Eviction.PerClientLimiter.Allow | chat/ratelimiter/ratelimiter.go:73-85 | the decision and the new bucket of the client, a full one if it had none; every other limiter is the same object with the same fields |
| Eviction.PerClientLimiter.CleanUp | chat/ratelimiter/ratelimiter.go:98-104 | a limiter is left exactly if it was idle for less than two seconds at its reading, as the same object, unchanged |
| Eviction.NothingIdleIsLeft | chat/ratelimiter/ratelimiter.go:98-104 | in any run, a cleanup leaves exactly the buckets that are not idle for the limit at their reading |
| Eviction.LongIdleIsFull | chat/ratelimiter/ratelimiter.go:44-50 | after a long enough idle time an old bucket and a new one decide alike and end alike |
| Eviction.NothingToTell | chat/ratelimiter/ratelimiter.go:73-108 | over any run, decisions equal those without eviction if a bucket refills completely within the limit |
| Eviction.EvictionShowsIff | chat/ratelimiter/ratelimiter.go:73-108 | some run tells evicting from not evicting exactly if a bucket can hold a whole token and does not refill within the limit |
| Eviction.EvictionIsUnobservable | chat/ratelimiter/http_server.go:13-14 | with the server's constants no run does |
| OutboxProtocol.StepIsSound | kafka-outbox/internal/repos/repo-shared/tx-closure.go:11-40 | every step of every concurrent transaction, rollbacks included, keeps the invariant |
| OutboxProtocol.SaveCommits | kafka-outbox/internal/service/payment.service.go:28-53 | committing a payment with its event keeps the correspondence and does not disturb transactions in flight |
| OutboxProtocol.TickCommits | kafka-outbox/internal/service/outbox.service.go:66-77 | committing a tick marks only events accepted everywhere, also with other ticks and inserts in flight |
| OutboxProtocol.HandleCommits | kafka-outbox/internal/service/inbox.service.go:34-63 | committing an audit row adds no second row for the event |
| OutboxRuns.OutboxEndToEnd | kafka-outbox/internal/service/payment.service.go:26-60 | over every run: payments and events one to one; an event not pending was accepted for every topic; every record and every audit row is a committed payment's; an audit row's event was accepted before, with the row's status; at most one audit row per event |
| OutboxRuns.RunOnlyGrows | kafka-outbox/internal/repos/event-repo.go:100-125 | no committed payment, event, record or audit row is ever lost or altered, and produced is final |
| OutboxRuns.RowCountAlwaysMatches | kafka-outbox/internal/service/outbox.service.go:70-74 | the update affects as many rows as it names, so that guard never aborts a tick |
| OutboxRuns.SavedBecomes | kafka-outbox/internal/service/inbox.service.go:38-56 | how each step changes whether an event has its row, committed or about to be |
| OutboxRuns.SettledIsSavedIff | kafka-outbox/internal/service/inbox.service.go:47-57 | every settled message has its row throughout a run exactly if no insert fails for another reason than a duplicate and none is rolled back |
| OutboxRuns.FailedCommitLosesTheRow | kafka-outbox/internal/service/inbox.service.go:56-63 | from any state, a delivery whose commit fails leaves its message settled and without a row |
| OutboxServices.Backend.InsertPayment | kafka-outbox/internal/repos/payment.repo.go:67-92 | the next id of the sequence, which a rollback does not return |
| OutboxServices.Backend.InsertEvent | kafka-outbox/internal/repos/event-repo.go:75-82 | the event is written inside the transaction only |
| OutboxServices.Backend.GetAllPending | kafka-outbox/internal/repos/event-repo.go:140-163 | exactly the committed pending events, each once |
| OutboxServices.Backend.Produce | kafka-outbox/internal/kafka/producer/producer.go:42-57 | the event goes to the topics up to the first refusal, and an error means one refused |
| OutboxServices.Backend.UpdateStatusByIds | kafka-outbox/internal/repos/event-repo.go:100-125 | an error for no ids, otherwise the number of rows with these ids |
| OutboxServices.Backend.InsertAudit | kafka-outbox/internal/repos/inbox.repo.go:74-92 | the row of the received event is written inside the transaction, and the message settled at once |
| OutboxServices.Backend.Close | kafka-outbox/internal/repos/repo-shared/tx-closure.go:18-37 | an error, or a failing commit, leaves no trace of the transaction; otherwise all of it is committed |
| OutboxServices.CompleteIdsAreThoseSent | kafka-outbox/internal/service/outbox.service.go:49-64 | the ids collected are those of listed events that marshal and that every topic takes |
| OutboxServices.TickLeavesTheIncomplete | kafka-outbox/internal/service/outbox.service.go:49-66 | after a committed tick exactly those pending events are still pending that some topic refused or that did not marshal |
| OutboxServices.OutboxService.HandlePending | kafka-outbox/internal/service/outbox.service.go:39-83 | a run of the protocol; nothing at all without a transaction or the pending rows; otherwise each pending event that marshals goes to exactly the topics before the first refusal, stays sent, and exactly those that no topic refused are marked, all or none; when exactly it fails; nothing else changes |
| OutboxServices.PaymentService.Save | kafka-outbox/internal/service/payment.service.go:26-60 | a run of the protocol; payment and event are both there or neither, and the result and error in each case, 0 and an error if no transaction begins |
| OutboxServices.InboxService.Await | kafka-outbox/internal/repos/inbox.repo.go:74-81 | an insert waits for the one transaction that has inserted the same key, which commits or rolls back; then nobody holds it |
| OutboxServices.InboxService.Save | kafka-outbox/internal/service/inbox.service.go:32-70 | a run of the protocol; nothing happens if no transaction begins; otherwise the message is settled in every case, and a row with the event's id, parent, metadata and status added exactly if the event has none after the wait and insert and commit succeed |
| RingBuffer.RingBuffer.constructor | chat/with-loop-per-client/ring-buffer.go:13-19 | an empty history |
| RingBuffer.RingBuffer.Push | chat/with-loop-per-client/ring-buffer.go:21-31 | panics exactly on a ring of size zero; otherwise the history gains the message, the ring still represents it, and what is kept is the most recent of what was kept and the message |
| RingBuffer.RingBuffer.GetAll | chat/with-loop-per-client/ring-buffer.go:66-82 | the last `size` messages of the whole history, or all of them, oldest first |
| RingBuffer.RingBuffer.CopyFrom | chat/with-loop-per-client/ring-buffer.go:74-79 | the kept messages from a given one on, in order |
| RingBuffer.RingBuffer.GetFromOffset | chat/with-loop-per-client/ring-buffer.go:33-64 | the search loop as it is: the newest message if the second oldest is newer than the offset, nothing if it is not, and a nil dereference on a slot never written |
| RingBuffer.NewerMeans | chat/with-loop-per-client/ring-buffer.go:43-63 | the messages to replay are exactly those kept with a larger offset |
| RingBuffer.NewerFrom | chat/with-loop-per-client/ring-buffer.go:56-63 | with offsets in order, the newer messages are those from the first newer one on |
| RingBuffer.ReplayIsRightIff | chat/with-loop-per-client/ring-buffer.go:43-54 | with offsets in order, the replay returns exactly the newer messages if and only if the ring is empty, or holds one message and has size one, or two of which the older is not newer, or more of which none is newer |

## Left out

- ChatServer.WSServer.SendBroadcastMsgWorkers: the receivers are those at the time of dispatch; the workers' goroutines read their maps a little later.
- OutboxServices.PaymentService.Save: the unique order number is not tracked; a duplicate is one of the reasons the insert may fail.
- The protocol of the tracker assigns a partition only after it was revoked; replacing a live tracker is modelled in `ConsumerRegistry` only.
- More than one topic per consumer: trackers are keyed by partition number alone, so those of two topics collide.
- The range and lag results, and the fall by at most one, assume that a delivery is settled in its own session, if at all; at-least-once and monotonicity do not.
- A commit that the broker stores only after its call has returned an error, so that it overtakes a later one.
- Goroutine scheduling, mutexes and channels beyond atomic steps; in particular the gap between lookup and insertion in `PerClientLimiter.Allow`, where two first calls of one client may each create a limiter.
- Produced means accepted by the producer's queue, not delivered by the broker; delivery failures are only logged.
- Duplicate keys of random client ids; event ids are kept unique by the primary key, as in `kafka-cdc/migrations/payment/000002_events.up.sql`.
- Timestamps, event types and parent types of events and audit rows; serialisation is the identity.
- Panics inside a database transaction, and a database commit that is stored although it reports an error.
- A handler that settles while its partition has no tracker: `ConsumerRegistry` models the leaked lock, the protocol of the tracker has no such step.
- Floating-point rounding; the forces, the wall, the drawing and the worker goroutines of the boids game.
- The truncation of the number of workers to 32 bits, websocket, HTTP, metrics and logging.
- The services in `kafka-chans`, `performance`, `protocol-playground`, `chat/client-loop` and the rest of `chat/with-loop-per-client`: plumbing and simulators.
