# The chat server's concurrent core, modelled and proved in Dafny

The repository is a chat server for Windows: a hand-written network and threading library
(`ServerCore`) and the server built on it (`Server`). Its correctness rests on small protocols over
shared state. This project models those protocols step by step and proves what holds in every run of
any number of threads.

How the models are built:

- Code that several threads run at once is a state machine. One step is one atomic operation, one
  database statement, or one block under a lock. A run is a sequence of states joined by steps of
  arbitrary threads, and callers, the scheduler and the kernel choose freely. The theorems speak about
  every state of every run.
- Code that one thread runs alone (`RecvBuffer`, `PacketSession::OnRecv`, `SendBufferChunk`,
  `LockQueue`, `DBConnectionPool`, `DBBind`) is a class or a method with loops.
- What every operation does is proved too: a thread that runs it alone, from any consistent state,
  takes the system to exactly the state the operation promises. These theorems end in `Alone` or stand
  in the modules ending in `Use` and in `Sending`.
- `CRASH` and `ASSERT_CRASH` end the run, and the models record that they were reached.
- Histories (what was enqueued, what ran, what was delivered) are kept beside the source's fields so
  that theorems can refer to them. Nothing the source does depends on them.

| file | what it models |
|---|---|
| `Runs.dfy`, `Tally.dfy` | runs of a state machine, and sums of a weight over all threads |
| `SpinLock.dfy` | `Lock`: the recursive reader/writer spin lock, its four atomics, both builds |
| `JobScheduler.dfy`, `JobUse.dfy` | `JobQueue`: the counter that decides which thread executes a queue; its operations alone |
| `LockQueues.dfy` | `LockQueue` |
| `Framing.dfy`, `Receive.dfy` | the wire format, `RecvBuffer`, `ProcessRecv`, `OnRecv` |
| `Messaging.dfy` | `Send`, `RegisterSend`, `ProcessSend` and `Room::BroadCast`, all at once |
| `Broadcasts.dfy` | how often a broadcast reaches each session |
| `Sending.dfy` | a send, its completion and a broadcast alone |
| `Delivery.dfy` | the two ends put together |
| `SendBuffers.dfy`, `BufferUse.dfy` | the send-buffer allocator: chunks, shared ownership, recycling; its operations alone |
| `RoomLife.dfy`, `RoomUse.dfy` | a room from creation to destruction, with its database row; its operations alone |
| `Login.dfy` | logging in and going offline |
| `ConnectionPool.dfy` | the connection pool and the workers that draw on it |
| `LockOrder.dfy` | which locks the server nests, and that no threads wait in a circle |
| `BindMask.dfy` | the bit masks of `DBBind` |

Properties that the code does not have in full, with the exact condition under which it has them:

- A queue has at most one executor as long as no claim is made on it while one exists, and a second
  claim appears exactly so (`AtMostOneKept`, `OneExecutorInEveryRun`). `JobQueue::GlobalPush` is public
  and can double a claim (`TwoExecutors`); the server's own use of it, in `RESPONSE_END`, never does
  (`RespondentInEveryRun`). What survives any number of direct calls is `RobustInEveryRun`.
- `OnRecv` returns unless a frame of size 0 comes up (`HaltsExactly`).
- A connected session's queue always has someone to send it, except from the moment a failed `WSASend`
  gives up the flag with more queued behind it until the next `Send` or the disconnect
  (`StallsExactly`, `StallEndsExactly`, `StallHasCause`, `StallHappens`).
- The last leave destroys the room unless a join is in flight or a join has added nobody. If the last
  member's leave does not destroy it, nothing ever does and its row stays (`DestroysExactly`,
  `NeverDestroyed`, `UndeadHappens`).
- A leave crashes if the user is not a member, if it looks the room up in the room table when it is not
  there, or if the room is destroyed before its creator has put it there (`RoomLife.CrashesExactly`,
  with a run of each kind: `StrangerCrashes`, `LookupCrashes`, `UnlistCrashes`).
- An account is used by one session at a time until a session that never logged in runs its disconnect
  update with that account's id, which can only be the empty one, while somebody else is logged in
  under it or about to be (`MarkLostExactly`, `Exclusive`, `ExclusiveNamed`, `EmptyIdShared`).
- An account that is marked online has a session that will clear the mark, until `DisconnectEx` fails
  for that session, or another id is set on it, or the id was set on a session past clearing it. Then
  the account stays marked (`OrphanedExactly`, `OrphanedForGood`, `OrphanHappens`,
  `FailedDisconnectOrphans`).
- The connection pool suffices with two connections a worker and can run dry with fewer
  (`PoolSuffices`, `FewerRunsDry`).
- A nested lock completes and releases cleanly unless a count would wrap or, in a debug build, the
  thread's id is above 31 or a write is nested on a read inside a write (`DisciplineExact`,
  `InnerReadExact`, `OuterReadExact`).
- A send buffer crashes the process only by being larger than a chunk or closing with more than it
  was opened for, and every larger size has a run that crashes (`SendBuffers.CrashesExactly`,
  `OversizeCrashes`). `MakeSendBuffer` writes a payload inside its buffer exactly up to 5996 bytes, and
  past it exactly where its 16-bit size wraps (`MakesExactly`).
- A statement validates exactly when everything has been bound, for up to 31 parameters and columns;
  with 32 it never does (`Validate`, `NeverAt32`).

The repository's `README.md` shows a pool of 20 connections. The code opens 30, and the model follows
the code. With eleven workers, 20 are too few by `FewerRunsDry`.

## Model

| member | source | states |
|---|---|---|
| `SpinLock.NoCrash` | ServerCore/Lock.cpp:6-124 | no CRASH branch of any of the four operations, nor of ValidateThreadId, is open to a thread that keeps the guards' discipline |
| `SpinLock.WordsKept` | ServerCore/Lock.cpp:6-124 | one operation moves `_lockState` and `_writerPending` exactly as the totals over all threads move: writers, outer reads, announced writers |
| `SpinLock.OneWriter` | ServerCore/Lock.cpp:18-36 | two threads that both hold the lock for writing are the same thread |
| `SpinLock.WordSays` | ServerCore/Lock.h:5-67 | what the value of `_lockState` says about any thread's guards, and that a writer leaves nothing to the others |
| `SpinLock.Preserve` | ServerCore/Lock.cpp:6-124 | every atomic operation keeps the invariant, through the windows in which owner and state disagree |
| `SpinLock.SafeInEveryRun` | ServerCore/Lock.cpp:6-124 | in every state of every run, in both builds: no crash; a writer excludes all other readers and writers; `_lockState` is -1 exactly with a writer and else the number of outer read holds; it is 0 exactly when nobody holds anything |
| `SpinLock.Refines` | ServerCore/Lock.cpp:6-124 | every atomic operation is a step of the abstract recursive reader/writer lock or invisible to it |
| `SpinLock.RefinesInEveryRun` | ServerCore/Lock.cpp:6-124 | every run of the four-atomic lock, seen through the guards held, is a run of the abstract lock |
| `SpinLock.WriteAlone` | ServerCore/Lock.cpp:18-36 | WriteLock on a free lock, undisturbed: state, owner and count are the caller's and the announcement is withdrawn |
| `SpinLock.UnlockAlone` | ServerCore/Lock.cpp:39-57 | the outermost WriteUnLock frees the lock |
| `SpinLock.WriteThenUnlock` | ServerCore/Lock.cpp:6-57 | together they leave a free lock as it was |
| `SpinLock.NestedAlone` | ServerCore/Lock.cpp:8-16 | a nested WriteLock counts one more, its unlock one less, and neither frees the lock |
| `SpinLock.InnerReadAlone` | ServerCore/Lock.cpp:59-69 | a ReadLock inside a write changes no word, and its unlock undoes it |
| `SpinLock.OuterReadTakes` | ServerCore/Lock.cpp:71-107 | an outer ReadLock without a writer in the way adds one to the state in five operations |
| `SpinLock.OuterReadLeaves` | ServerCore/Lock.cpp:109-124 | its unlock takes it away, or crashes exactly on the debug checks |
| `SpinLock.OuterReadAlone` | ServerCore/Lock.cpp:59-124 | together they leave lock and thread as they were |
| `SpinLock.ReadRetries` | ServerCore/Lock.cpp:72-106 | a reader that loses the CAS or finds a writer polls for writers again, and the loser gets in with its next attempt |
| `SpinLock.MisuseCrashes` | ServerCore/Lock.cpp:39-124 | an unlock without its lock is caught, exactly |
| `SpinLock.DisciplineExact` | ServerCore/Lock.cpp:8-16 | one more nested WriteLock and its unlock go without a crash if and only if the discipline permits it: the 16-bit count does not wrap and, in a debug build, the id is valid and no read is held in between |
| `SpinLock.InnerReadExact` | ServerCore/Lock.cpp:59-69 | a ReadLock inside a write and its unlock go without a crash if and only if, in a debug build, the id is below 32 and the read depth does not wrap |
| `SpinLock.OuterReadExact` | ServerCore/Lock.cpp:71-124 | so do an outer ReadLock that no writer stands in the way of, and its unlock |
| `SpinLock.IdKept` | ServerCore/Lock.h:27-34 | under the discipline a debug thread whose id ValidateThreadId rejects never stands in a read or a nested write |
| `SpinLock.WriterBypassBound` | ServerCore/Lock.cpp:71-106 | while a writer stays announced, the outer reads still granted are at most the threads that were already past the pending check |
| `SpinLock.UpgradeNeverReturns` | ServerCore/Lock.cpp:18-36 | a thread that asks to write while it holds an outer read spins in every continuation of the run, and keeps `_writerPending` above 0 |
| `JobScheduler.CountsKept` | ServerCore/JobQueue.cpp:6-54 | every step keeps `_jobCount` equal to jobs queued, popped but not subtracted, and counted but not yet stored |
| `JobScheduler.ConservedKept` | ServerCore/JobQueue.cpp:6-54 | every step keeps each stored job in exactly one of: ran, queued, waiting in some thread's batch |
| `JobScheduler.BatonsMove` | ServerCore/JobQueue.cpp:6-67 | claims on a queue appear only with the first push onto an idle queue or a direct GlobalPush, and disappear only when fetch_sub finds everything done |
| `JobScheduler.RobustInEveryRun` | ServerCore/JobQueue.cpp:6-67 | with any direct GlobalPush calls and any number of executors: the count never underflows and is exact, no job runs twice, a positive count has somebody responsible, and at 0 everything stored has run |
| `JobScheduler.StaysOn` | ServerCore/JobQueue.cpp:12-32 | a thread takes up a queue only from executing nothing, keeps to it while it executes, and goes through a batch one job after the other |
| `JobScheduler.OneQueueAtATime` | ServerCore/JobQueue.cpp:12-17 | in every run, for as long as a thread executes something it executes the same queue, so jobs never nest on a thread |
| `JobScheduler.SingleKept` | ServerCore/JobQueue.h:22-24 | exactly one claim while anything is counted, and none otherwise, survives a step if and only if the step is not a direct GlobalPush of the queue |
| `JobScheduler.AtMostOneKept` | ServerCore/JobQueue.h:22-24 | at most one claim survives a step if and only if the step does not make a claim while there is one |
| `JobScheduler.OrderedKept` | ServerCore/JobQueue.cpp:20-54 | with at most one claim, every step keeps: stored order is what ran, then what the executor has in hand, then what waits |
| `JobScheduler.SerialInEveryRun` | ServerCore/JobQueue.cpp:6-54 | without direct GlobalPush, in every run: at most one thread executes the queue, a claim exists exactly while `_jobCount` is above 0, jobs run once and in stored order |
| `JobScheduler.OneExecutorInEveryRun` | ServerCore/JobQueue.cpp:6-67 | with any direct GlobalPush calls that come while nobody has a claim, in every run: at most one thread executes the queue, and jobs run once and in stored order |
| `JobScheduler.RespondentInEveryRun` | Server/PacketRespondent.h:16-25 | a queue that gets its one job from a thread executing nothing, and is pushed to the global queue when that Push has returned, never has two executors |
| `JobScheduler.TwoExecutors` | ServerCore/JobQueue.h:23 | a concrete run in which a queue is pushed to the global queue directly, popped and then given a job, and two threads execute it |
| `JobUse.PushStores` | ServerCore/JobQueue.cpp:6-18 | Push counts the job and stores it at the end, and binds the thread to schedule the queue exactly if the count was 0 |
| `JobUse.PushRuns` | ServerCore/JobQueue.cpp:6-54 | a Push alone by a thread that executes nothing, on an idle queue, has run the job when it returns |
| `JobUse.PushInside` | ServerCore/JobQueue.cpp:12-17 | from inside a job it puts an idle queue at the end of the global queue, and leaves the job of a busy one to its holder |
| `JobUse.RunsBatch` | ServerCore/JobQueue.cpp:28-32 | the for loop invokes the batch in order |
| `JobUse.ExecuteAlone` | ServerCore/JobQueue.cpp:20-46 | one round runs everything queued in order, counts it off, and is the last exactly if nothing else is counted |
| `JobUse.SliceEnds` | ServerCore/JobQueue.cpp:47-53 | a slice that is up puts the queue at the end of the global queue and lets go; one that is not goes round again |
| `JobUse.GlobalTakes` | ServerCore/JobQueue.cpp:56-60 | the global loop takes up the first queue |
| `LockQueues.LockQueue.constructor` | ServerCore/LockQueue.h:5-7 | starts empty |
| `LockQueues.LockQueue.Push` | ServerCore/LockQueue.h:9-13 | appends |
| `LockQueues.LockQueue.Pop` | ServerCore/LockQueue.h:34-43 | takes the first item, and reports emptiness exactly when there is none |
| `LockQueues.LockQueue.PopAll` | ServerCore/LockQueue.h:45-54 | takes, in order, all items in front of the first null, and that null; what follows it stays |
| `LockQueues.LeadingAll` | ServerCore/LockQueue.h:45-54 | without null items PopAll takes everything |
| `Framing.CutAnywhere` | ServerCore/Session.cpp:294-315 | cutting a stream at any point and resuming on the unread rest gives the same frames and the same rest |
| `Framing.StuckForGood` | ServerCore/Session.cpp:306-311 | nothing that arrives later gets past a frame of size 0 |
| `Framing.RestIsSuffix` | ServerCore/Session.cpp:294-315 | the unread rest is a suffix of the stream, and a frame complete in it has size 0 |
| `Framing.TailBound` | ServerCore/Session.h:14 | an incomplete tail is shorter than the largest frame |
| `Framing.ShortWaits` | ServerCore/Session.cpp:298-302 | fewer bytes than a header are left alone |
| `Framing.DecodeEncode` | README.md:195-208 | a framed packet is size and id, low byte first, then the payload; it carries its own length and decodes to itself |
| `Framing.FramesOfEncoded` | README.md:195-208 | the bytes of framed packets are cut back into exactly those frames, with no rest |
| `Framing.RoundTrip` | README.md:195-208 | framing any list of packets and cutting the bytes up again gives back the list, with nothing left over |
| `Receive.RunsThrough` | ServerCore/Session.cpp:294-315 | the loop, turn by turn, passes all complete frames and then leaves, or stands at a frame of size 0 |
| `Receive.ZeroSpins` | ServerCore/Session.cpp:306-311 | at a frame of size 0 every turn of the loop hands on one more empty packet and moves nowhere |
| `Receive.HaltsExactly` | ServerCore/Session.cpp:294-315 | the loop ends if and only if no frame of size 0 comes up, and then with the complete frames handed on and only the tail unread |
| `Receive.HangsOn` | ServerCore/Session.cpp:294-315 | otherwise it hands on the complete frames in front of that frame, and then empty packets without end |
| `Receive.OnRecv` | ServerCore/Session.cpp:294-315 | the loop itself: what it handed on when it returned, or when it came to a frame of size 0, is the complete frames, and what it left is the rest |
| `Receive.RecvBuffer.constructor` | ServerCore/RecvBuffer.cpp:5-9 | an empty buffer of BUFFER_COUNT times the size |
| `Receive.RecvBuffer.Clean` | ServerCore/RecvBuffer.cpp:15-31 | compaction happens exactly when nothing is left or room runs short, keeps the amount of data, and keeps the contents whenever source and target of its copy are disjoint |
| `Receive.RecvBuffer.OnRead` | ServerCore/RecvBuffer.cpp:33-43 | drops that many bytes from the front, or refuses exactly when there are fewer |
| `Receive.RecvBuffer.OnWrite` | ServerCore/RecvBuffer.cpp:45-55 | advances the write cursor, or refuses exactly when there is no room |
| `Receive.RecvBuffer.Land` | ServerCore/Session.cpp:123-146 | the bytes of a receive land behind what is there and change nothing else |
| `Receive.PacketSession.constructor` | ServerCore/Session.cpp:7-11 | a connected session with nothing received and the first receive posted |
| `Receive.PacketSession.Absorb` | ServerCore/Session.cpp:217-233 | a completed receive appends its bytes to the contents, and the write overflow cannot happen |
| `Receive.PacketSession.Consume` | ServerCore/Session.cpp:234-245 | hands on exactly the complete frames, keeps exactly the tail, leaves room for a whole receive; the read overflow cannot happen and the copy never overlaps |
| `Receive.PacketSession.ProcessRecv` | ServerCore/Session.cpp:217-246 | after every receive: delivered is the frames of all bytes so far, up to a frame of size 0; the buffer is exactly the incomplete tail, under 65535 bytes, with at least 65536 free; neither overflow disconnect is reachable; 0 bytes disconnect; the next receive is posted exactly while connected; it hangs exactly on a frame of size 0 |
| `Receive.Feed` | ServerCore/Session.cpp:123-146 | an arrival of any length, taken in receives of at most the free space, extends the stream by exactly its bytes |
| `Receive.ReceiveAll` | ServerCore/Session.cpp:217-246 | for every stream and every split into arrivals, of any length, the packets handed on depend only on the stream |
| `Receive.ReceivePackets` | ServerCore/Session.cpp:217-246 | packets framed by one side and carried in any chunks arrive as the same list with nothing left over |
| `Messaging.TargetsFrom` | Server/RoomHandler.h:22-45 | a broadcast goes to exactly the members not excluded |
| `Messaging.RightKept` | ServerCore/Session.cpp:148-191 | `_sendRegistered` always has exactly one party answering for it, through every step of the send path |
| `Messaging.OrderKept` | ServerCore/Session.cpp:148-191 | every buffer enqueued is in one batch, in hand or queued, in order, through every step |
| `Messaging.Preserve` | ServerCore/Session.cpp:17-35 | every step of senders, broadcasts, completions and disconnects keeps the whole invariant |
| `Messaging.SendProtocol` | ServerCore/Session.cpp:17-35 | in every run: at most one WSASend outstanding, none empty; batches, hand and queue together are all buffers enqueued, in order; absent errors and disconnects nothing is lost and a waiting queue has somebody responsible |
| `Messaging.DisturbedExactly` | ServerCore/Session.cpp:148-191 | a session is disturbed exactly by a disconnect, a completion of 0 bytes or a refused WSASend |
| `Messaging.NothingLost` | ServerCore/Session.cpp:17-35 | in every run without such a step on it, a session's buffers are exactly those sent, in hand and queued, in order |
| `Messaging.RoomsEffect` | Server/RoomHandler.h:22-45 | a room's lock, number and members change only as broadcasts begin and end and, outside them, members change |
| `Messaging.StallsExactly` | ServerCore/Session.cpp:183-189 | for every step of the whole system, a connected session's queue that had somebody responsible is left without if and only if the step gives up the flag after a failed WSASend, with more queued and nobody in the middle of a Send |
| `Messaging.StallEndsExactly` | ServerCore/Session.cpp:17-35 | for every step, such a queue goes on waiting if and only if the step is not the next Send storing a buffer, nor the disconnect |
| `Messaging.StallHasCause` | ServerCore/Session.cpp:148-191 | in every run, a queue without anybody responsible has such a failed WSASend behind it and has waited ever since |
| `Messaging.AnsweredMeans` | ServerCore/Session.cpp:17-35 | some thread is on its way to a session's queue exactly when the flag's right or the session's lock is with a thread |
| `Messaging.StallHappens` | ServerCore/Session.cpp:183-189 | a concrete run of two senders that ends connected, with a queued buffer and nobody to send it |
| `Messaging.DropsKeepOrder` | ServerCore/Session.cpp:183-189 | dropping whole batches reorders nothing |
| `Messaging.SentInOrder` | Server/RoomHandler.h:22-45 | what reaches a socket carries each room's broadcasts in the order they were begun |
| `Messaging.MembersAgree` | Server/RoomHandler.h:22-45 | two members that are both sent two broadcasts of a room are sent them in the same order, in every run |
| `Broadcasts.EveryMemberServed` | Server/RoomHandler.h:22-45 | when a broadcast ends, every connected session has exactly as many copies of it as the room lists the session, none if excluded; a disconnected one no more |
| `Broadcasts.TargetsExactly` | Server/RoomHandler.h:27-44 | a broadcast's targets have each member as often as the room lists it, and excluded ones never |
| `Broadcasts.AtMostOnce` | Server/RoomHandler.h:22-45 | where rooms list no session twice, no session is given one broadcast twice, in any run |
| `Broadcasts.SentStrictly` | ServerCore/Session.cpp:148-191 | then what reaches a socket carries each room's broadcasts in strictly ascending order |
| `Sending.SendAlone` | ServerCore/Session.cpp:17-35 | a Send alone: nothing to a disconnected session, one more queued while a send is registered, else the whole queue goes to WSASend; refused, it is dropped and the flag freed, and a reset disconnects |
| `Sending.RegisterAlone` | ServerCore/Session.cpp:148-191 | RegisterSend drains the queue and posts it as one batch, or drops it |
| `Sending.SendSends` | ServerCore/Session.cpp:148-191 | an accepted Send on an idle session leaves one send outstanding, the queue empty, and what was sent longer by the queue and that buffer |
| `Sending.CompletionAlone` | ServerCore/Session.cpp:248-266 | a completion alone: of 0 bytes it disconnects, with nothing queued it frees the flag, else it posts the queue as the next batch |
| `Sending.DisconnectAlone` | ServerCore/Session.cpp:42-49 | a disconnect can come at any time and leaves the queue as it is |
| `Sending.MembersChange` | Server/RoomHandler.cpp:13-21 | members can change whenever no broadcast has the room's lock |
| `Sending.BroadcastAlone` | Server/RoomHandler.h:22-45 | a broadcast alone sends the next number once to every listed member not excluded, in map order |
| `Delivery.PacketsOfPrefix` | ServerCore/Session.cpp:294-315 | wherever the bytes of framed packets are cut, what arrived decodes to the first few packets |
| `Delivery.PeerSeesPrefix` | ServerCore/Session.cpp:148-191 | in every run, whatever part of a session's bytes has arrived, the peer has been handed exactly the first k packets sent, with each room's broadcasts in the common order |
| `SendBuffers.SendBufferChunk.constructor` | ServerCore/SendBuffer.h:25-48 | an empty closed chunk |
| `SendBuffers.SendBufferChunk.Reset` | ServerCore/SendBuffer.cpp:30-34 | closed and empty again, bytes untouched |
| `SendBuffers.SendBufferChunk.Open` | ServerCore/SendBuffer.cpp:36-46 | which of crash, no room or a region it answers, that only success opens it, and that the region is inside the chunk whenever the fill mark is |
| `SendBuffers.SendBufferChunk.Close` | ServerCore/SendBuffer.cpp:48-53 | crashes exactly when not open, else moves the fill mark by what was written, in 32 bits |
| `SendBuffers.PlacedKept` | ServerCore/SendBuffer.cpp:57-103 | every step keeps each chunk in exactly one place, through assignment, thread exit and the deleter |
| `SendBuffers.Preserve` | ServerCore/SendBuffer.cpp:14-103 | every step keeps the whole allocator invariant |
| `SendBuffers.LiveBuffersDisjoint` | ServerCore/SendBuffer.cpp:14-53 | in every run, two live buffers of one chunk use disjoint bytes inside it |
| `SendBuffers.RecordFixed` | ServerCore/SendBuffer.cpp:14-19 | a closed buffer's region never changes, and once let go it stays let go |
| `SendBuffers.BytesNeverChange` | ServerCore/SendBuffer.cpp:14-103 | the bytes of a closed buffer stay the same for as long as any reference to it remains, whatever other threads do |
| `SendBuffers.ResetOnlyVacant` | ServerCore/SendBuffer.cpp:57-75 | Reset strikes only chunks that no live buffer refers to |
| `SendBuffers.EveryChunkInOnePlace` | ServerCore/SendBuffer.cpp:77-103 | every chunk is in the pool, with exactly one thread, or kept only by its live buffers; never in two of these |
| `SendBuffers.CrashesExactly` | ServerCore/SendBuffer.cpp:14-53 | a step crashes if and only if a buffer larger than a chunk was asked for or one closes with more than it was opened for |
| `SendBuffers.OversizeCrashes` | ServerCore/SendBuffer.cpp:36-75 | for every size above a chunk's, a run that asks for it and crashes |
| `SendBuffers.MakesExactly` | README.md:195-208 | for which payload sizes MakeSendBuffer writes inside its buffer, runs past it, and crashes |
| `SendBuffers.OpenTwiceCrashes` | ServerCore/SendBuffer.cpp:57-75 | opening while the thread's chunk is open is caught |
| `BufferUse.OpenHere` | ServerCore/SendBuffer.cpp:57-75 | Open alone, with room: the buffer begins at the chunk's fill mark |
| `BufferUse.OpenFirst` | ServerCore/SendBuffer.cpp:57-90 | without a chunk: it begins the last chunk of the pool, or a new one if the pool is empty |
| `BufferUse.OpenNext` | ServerCore/SendBuffer.cpp:57-96 | with too little room: it begins another chunk, and the old one goes back to the pool exactly if no live buffer refers to it |
| `BufferUse.StoreWrites` | ServerCore/SendBuffer.h:40-43 | writing changes one byte of the buffer's region and no other byte |
| `BufferUse.CloseMarks` | ServerCore/SendBuffer.cpp:14-53 | Close leaves the fill mark where the written bytes end and the buffer with exactly those bytes |
| `BufferUse.ReleaseAlone` | ServerCore/SendBuffer.cpp:77-103 | letting go of a buffer gives its chunk back exactly if nothing else refers to it |
| `BufferUse.ExitAlone` | ServerCore/SendBuffer.cpp:98-103 | a thread that ends gives its chunk back exactly if no live buffer refers to it |
| `RoomLife.RoomKept` | Server/RoomHandler.cpp:23-88 | every step keeps `roomState` and `user_count` equal to members, joins and leaves in flight, and joins that added nobody |
| `RoomLife.Preserve` | Server/LobbyRespondent.h:126-188 | every step of creating, joining and leaving keeps the whole invariant |
| `RoomLife.GhostsExactly` | Server/RoomHandler.cpp:13-21 | a join adds nobody if and only if it finds `_users` empty or its user a member already |
| `RoomLife.MembersExactly` | Server/RoomHandler.cpp:13-52 | `_users` changes by creation, by AddUser on a room that is not empty and not being left, and by a leave of a member, in no other way |
| `RoomLife.TeardownSafe` | Server/RoomHandler.cpp:52-63 | a room is destroyed only with `_users` empty and no join in flight, and at that moment `user_count` is 0 |
| `RoomLife.RowIsRemoved` | Server/RoomHandler.cpp:57-61 | the guarded DELETE of a teardown always removes the row |
| `RoomLife.DestroyedForGood` | Server/LobbyRespondent.h:129-157 | after Destruction, in all the rest of the run: never left, nobody a member, no join's CAS and no second destruction succeeds, RemoveRoom at most once |
| `RoomLife.EmptyForGood` | Server/RoomHandler.cpp:13-21 | `_users`, once emptied, stays empty |
| `RoomLife.DestroysExactly` | Server/RoomHandler.cpp:52-63 | the leave that tries destroys the room if and only if no member is left, no join is in flight and no join added nobody |
| `RoomLife.NeverDestroyed` | Server/RoomHandler.cpp:52-63 | if the last member's leave does not destroy the room, nothing in the rest of the run does, and its row stays |
| `RoomLife.UndeadHappens` | Server/LobbyRespondent.h:141-188 | a concrete run: the only member leaves between a join's CAS and its AddUser |
| `RoomLife.CrashesExactly` | Server/RoomHandler.cpp:48-105 | a step crashes if and only if somebody leaves who is not a member, looks the room up in the table when it is not there, or takes it out before its creator has put it there |
| `RoomLife.StrangerCrashes` | Server/RoomHandler.cpp:48 | a concrete run of the first kind: the user of a join that added nobody leaves |
| `RoomLife.LookupCrashes` | Server/RoomRepondent.h:75-77 | of the second kind: the creator asks to leave before AddRoom |
| `RoomLife.UnlistCrashes` | Server/LobbyRespondent.h:85-91 | of the third kind: the creator's session disconnects before AddRoom |
| `RoomUse.CreateAlone` | Server/LobbyRespondent.h:60-91 | a room created alone has one member, counted once in roomState and its row, and is in the table |
| `RoomUse.JoinAlone` | Server/LobbyRespondent.h:110-188 | a join alone is refused without a row, a listed room or after destruction; else roomState and user_count go up by one and the user becomes a member unless the room is empty |
| `RoomUse.JoinRetries` | Server/LobbyRespondent.h:141-156 | a join whose CAS fails tries again with the value found, and gives up only on Destruction |
| `RoomUse.LeaveAlone` | Server/RoomHandler.cpp:23-88 | a leave alone removes exactly that member and one from roomState and user_count, and at 0 destroys, deletes and unlists the room |
| `RoomUse.JoinThenLeave` | Server/RoomHandler.cpp:13-88 | a user who joins a room of others alone and leaves it alone leaves it as it was |
| `Login.SoundKept` | Server/AuthRespondent.h:29-49 | for any account, every step but a harmful disconnect update keeps: no two sessions claim it, and while claimed or about to be it is online |
| `Login.MarkLostExactly` | Server/ClientSession.cpp:17-35 | for every step, an account loses its mark under somebody who is logged in or about to be if and only if the step is the disconnect update of a session that had not logged in when its id was read, while another session claims the account or a login is about to set it |
| `Login.Exclusive` | Server/AuthRespondent.h:29-49 | for every id, in every run without such a step on it: at most one session is logged in under it, and while one is the account is online |
| `Login.ExclusiveNamed` | Server/AuthRespondent.h:29-49 | for every id but the empty one that holds in every run without exception |
| `Login.AdmittedBySelect` | Server/AuthRespondent.h:13-36 | in every run, a thread that marks x online or sets x on a session has behind it a SELECT that found x registered and offline and the password right |
| `Login.OrphanedExactly` | ServerCore/Session.cpp:105-121 | for every step, an online account is left with nobody to clear its mark if and only if DisconnectEx fails for the only session that would, another id is set on that session, or the id is set on a session that is dead or has read another id, and no other session would |
| `Login.OrphanedForGood` | Server/AuthRespondent.h:29-49 | such an account stays so through every step but the id read of a disconnecting session that never logged in and whose id it is |
| `Login.OrphanHappens` | Server/AuthRespondent.h:29-49 | a concrete run: a second login by the same session under another name |
| `Login.FailedDisconnectOrphans` | ServerCore/Session.cpp:105-121 | a concrete run: the session's DisconnectEx fails |
| `Login.LoginAlone` | Server/AuthRespondent.h:13-49 | a login alone logs in and marks the account online if it is registered, offline and the password right, and else changes nothing; the lock is free again |
| `Login.OffAlone` | Server/ClientSession.cpp:17-35 | a disconnect, undisturbed, marks offline whatever account the session's id names |
| `Login.EmptyIdShared` | Server/ClientSession.cpp:17-35 | a concrete run in which two sessions are logged in as the empty id, because a third that never logged in marked it offline |
| `ConnectionPool.DBConnectionPool.constructor` | ServerCore/DBConnectionPool.cpp:10-12 | starts empty |
| `ConnectionPool.DBConnectionPool.Connect` | ServerCore/DBConnectionPool.cpp:19-46 | succeeds exactly when the environment, its attribute and every connection do, and otherwise keeps the connections opened before the first failure |
| `ConnectionPool.DBConnectionPool.Pop` | ServerCore/DBConnectionPool.cpp:66-79 | takes the last connection, or answers null exactly when there is none |
| `ConnectionPool.DBConnectionPool.Push` | ServerCore/DBConnectionPool.cpp:81-85 | gives it back at the end |
| `ConnectionPool.RunConserved` | Server/PacketRespondent.h:10-25 | in every run, each connection is free or held by one worker, once |
| `ConnectionPool.EnoughLeft` | Server/RoomHandler.cpp:27-87 | with two connections a worker, a worker about to pop always finds one |
| `ConnectionPool.PoolSuffices` | Server/RoomHandler.cpp:27-87 | with two connections a worker, in every run Pop never answers null and no worker holds more than two |
| `ConnectionPool.ServerNeverRunsDry` | Server/Server.cpp:48-130 | the server's thirty connections and eleven workers never run dry |
| `ConnectionPool.FewerRunsDry` | Server/RoomHandler.cpp:27-87 | with fewer than two a worker, some run makes Pop answer null |
| `ConnectionPool.JobAlone` | Server/PacketRespondent.h:10-25 | a job alone pops one connection, a second while it removes a user, and puts both back |
| `ConnectionPool.DisconnectAlone` | Server/ClientSession.cpp:17-35 | a disconnect alone pops one to leave its room, if in one, gives it back, and then one to go offline |
| `LockOrder.WorkRanked` | Server/RoomRepondent.h:12-85 | every handler nests its locks by rank: login or create, room or service, table or session, then the pools; releases of send buffers under a room's or the table's lock included |
| `LockOrder.ServerRanked` | ServerCore/Session.cpp:148-266 | so does the rest of the server's code: queueing, completions, disconnects in and out of a room, connection set-up and service broadcasts |
| `LockOrder.RunExclusive` | ServerCore/Lock.cpp:6-57 | no lock is held by two threads in any run of that code |
| `LockOrder.WaitsUpward` | Server/RoomHandler.cpp:23-105 | a thread that is waited for and itself waits, waits for a lock of higher rank |
| `LockOrder.NoDeadlock` | Server/RoomHandler.cpp:23-105 | in every state of every run, every set of threads has a member that waits for no other member, so none wait in a circle |
| `LockOrder.AlwaysProgress` | Server/RoomHandler.cpp:23-105 | while any thread has work left, some thread can take its next step |
| `LockOrder.RunLength` | ServerCore/Lock.h:37-67 | every step does one unit of the work there was, so with AlwaysProgress every thread comes to the end of its requests |
| `LockOrder.DoneHoldsNothing` | ServerCore/Lock.h:53-67 | a thread with nothing left to do holds nothing |
| `LockOrder.RoomCovers` | Server/RoomHandler.cpp:23-88 | BroadCast and RemoveUser take every lock under the room's lock, and which ones in which order |
| `LockOrder.HandlerTakes` | Server/LobbyRespondent.h:34-196 | the locks each handler takes, in order |
| `LockOrder.ServerTakes` | ServerCore/Session.cpp:148-266 | the locks of queueing, completions, disconnects, set-up and service broadcasts, in order |
| `BindMask.FullBitsValue` | ServerCore/DBBind.h:4-11 | the template recursion computes 2^C - 1 |
| `BindMask.OrAddsMember` | ServerCore/DBBind.h:44-107 | OR with one bit adds exactly that member to the set a flag stands for |
| `BindMask.MaskExact` | ServerCore/DBBind.h:26-29 | a flag equals the mask of c bits if and only if exactly the indices below c are in it, none missing and none beyond |
| `BindMask.NeverAt32` | ServerCore/DBBind.h:4-29 | with 32 parameters or columns no in-range binds make the flag equal the mask |
| `BindMask.DBBind.constructor` | ServerCore/DBBind.h:17-24 | nothing bound |
| `BindMask.DBBind.BindParam` | ServerCore/DBBind.h:44-80 | adds one index to the bound parameters and changes nothing about columns |
| `BindMask.DBBind.BindCol` | ServerCore/DBBind.h:82-107 | adds one index to the bound columns and changes nothing about parameters |
| `BindMask.DBBind.Validate` | ServerCore/DBBind.h:26-29 | true if and only if the parameters and columns bound are exactly those the two masks stand for |

## Left out

- `Lock`, `JobQueue`, the send path of `Session`, `Room`, `SendBufferManager` and the login handler are state machines over values, not classes, because several threads run them at once; an object whose methods run one at a time would not show the interleavings.
- Memory order: all atomics have their default sequentially consistent order, so runs are interleavings.
- Fairness: nothing is said about a spin loop that the scheduler never lets through.
- The width of `_lockState` (32 bits) and of `_jobCount` (32 bits) is not modelled; the three 16-bit counters of `Lock` are.
- The lock's model takes thread ids to be distinct and never -1, as `ThreadManager` gives them, and unlocking to be last in, first out, as the two guards make it.
- Delayed jobs, `Job` execution ticks and `PriorityLockQueue`: the server posts no delayed job.
- SpinLock.SafeInEveryRun: rests on fewer than 65536 threads and on the guards' discipline: nested writes, and in a debug build the read depth, stay within 16 bits; in a debug build no write is nested on a read inside a write, and a thread whose id is above 31 takes no reads and no nested writes.
- The members Front, Size and Clear of LockQueue are not modelled.
- Framing.RoundTrip: a payload has at most 65531 bytes, since MakeSendBuffer stores the size in 16 bits; MakesExactly says what happens to larger ones.
- Receive.RecvBuffer.Clean: does not say what a copy between overlapping regions leaves behind, which memcpy leaves undefined; PacketSession.Consume shows that no stream leads there.
- Winsock and IOCP: WSASend and WSARecv are steps with free outcomes; accepting, connecting and event dispatch are left out.
- ODBC: a SQL statement is one atomic step on the rows it names; result sets, wide-character conversion and SQL errors other than the modelled ones are left out.
- Protobuf payloads are opaque bytes; the packet handlers' replies appear only as buffers that are sent. SerializeToArray is taken to refuse a message larger than the size it is given.
- Passwords: whether a login's password matches is a free choice of the run.
- The room table: a lookup without the table's lock is one atomic step, and one room is followed at a time.
- The room list, registration replies and chat log statements.
- LockOrder.ServerRanked: the code is reduced to which locks each path takes and how they nest; the read side of the locks is left out since the server takes only write guards.
- Receive.PacketSession.ProcessRecv: asks that the receive brought no more bytes than it was posted for, which the kernel guarantees.
- BindMask.DBBind.constructor: up to 32 parameters and columns; more do not compile, since the mask shifts an int by its whole width.
- BindMask.DBBind.BindParam: models the flag; an index past the source's arrays also takes an address outside them, and one past 63 shifts by more than the flag's width.
- BindMask.DBBind.BindCol: as BindParam.
- DBSynchronizer is commented out in the source and DBModel only formats text for it.
- The client's pages and event mapping, Tools/PacketGenerator, StringUtil, TimeUtil and start-up code.
