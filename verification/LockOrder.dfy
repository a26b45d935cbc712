/** The order in which the server's code nests its write locks.  The code of every request and
    completion is written down as the guards it constructs, one inside the other; threads run any
    such code in any interleaving; and no set of threads ever waits for locks held inside the set. */
module LockOrder {
  import opened Runs
  import opened Tally

  datatype Lock =
    | LoginLock                // PacketRespondent<C_LOGIN>::_lock
    | CreateLock               // PacketRespondent<C_CREATE_ROOM>::_lock
    | RoomLock(r: nat)
    | ServiceLock
    | TableLock                // RoomHandler::_lock
    | SessionLock(s: nat)
    | ConnectionLock           // DBConnectionPool::_lock
    | BufferLock               // SendBufferManager::_lock
    | QueueLock(q: nat)        // a JobQueue's _jobs
    | GlobalLock               // JobQueue::GJobQueues

  function Rank(l: Lock): nat {
    match l
    case LoginLock => 0
    case CreateLock => 0
    case RoomLock(_) => 1
    case ServiceLock => 1
    case TableLock => 2
    case SessionLock(_) => 2
    case ConnectionLock => 3
    case BufferLock => 3
    case QueueLock(_) => 3
    case GlobalLock => 3
  }

  /** Code as far as locks go: nothing, one piece after another, or a scope with a WriteLockGuard. */
  datatype Code = Skip | Then(first: Code, rest: Code) | Guard(lock: Lock, body: Code)

  // ---------------------------------------------------------------- the server's code

  function Use(l: Lock): Code { Guard(l, Skip) }

  /** GDBConnectionPool->Pop() or Push(). */
  function Pool(): Code { Use(ConnectionLock) }

  /** A SendBuffer made or released: its chunk may be fetched from, or go back to, the pool. */
  function Buffers(): Code { Use(BufferLock) }

  /** RegisterSend drains the queue under the session's lock and may drop the buffers on an error. */
  function RegisterSend(s: nat): Code { Then(Use(SessionLock(s)), Buffers()) }

  function Send(s: nat): Code { Then(Use(SessionLock(s)), RegisterSend(s)) }

  function MakeAndSend(s: nat): Code { Then(Buffers(), Send(s)) }

  function SendAll(users: seq<nat>): Code {
    if users == [] then Skip else Then(MakeAndSend(users[0]), SendAll(users[1..]))
  }

  function BroadCast(r: nat, users: seq<nat>): Code { Guard(RoomLock(r), SendAll(users)) }

  /** Overwriting or erasing a map entry under a lock may end a session, and so release its buffers. */
  function Replace(l: Lock): Code { Guard(l, Buffers()) }

  /** RemoveUser ends with either the room's removal or a broadcast to those who remain. */
  function RemoveUser(r: nat, users: seq<nat>, last: bool): Code {
    var ending := if last then Replace(TableLock) else BroadCast(r, users);
    Guard(RoomLock(r), Then(Pool(), Then(Buffers(), Then(ending, Pool()))))
  }

  datatype Request =
    | Login(s: nat)
    | Simple(s: nat)                                     // C_REGISTER, C_REFRESH_LOBBY
    | CreateRoom(s: nat, r: nat)
    | JoinRoom(s: nat, r: nat, users: seq<nat>)
    | Chat(r: nat, users: seq<nat>)
    | RoomOut(s: nat, r: nat, users: seq<nat>, last: bool)
    | SendDone(s: nat)                                   // ProcessSend
    | Gone(r: nat, users: seq<nat>, last: bool)          // ProcessDisconnect of a session in a room
    | GoneAlone                                          // ProcessDisconnect of a session in none
    | GlobalJobs                                         // one turn of ExcuteGlobalJobs
    | Connected                                          // AddSession
    | ServiceBroadcast(users: seq<nat>)

  /** What a job does between taking its connection and giving it back. */
  function Work(req: Request): Code {
    match req
    case Login(s) => Then(Use(LoginLock), MakeAndSend(s))
    case Simple(s) => MakeAndSend(s)
    case CreateRoom(s, r) => Then(Use(CreateLock), Then(Use(RoomLock(r)), Then(Replace(TableLock), MakeAndSend(s))))
    case JoinRoom(s, r, users) => Then(Replace(RoomLock(r)), Then(BroadCast(r, users), MakeAndSend(s)))
    case Chat(r, users) => BroadCast(r, users)
    case RoomOut(s, r, users, last) => Then(RemoveUser(r, users, last), MakeAndSend(s))
    case _ => Skip
  }

  /** OnDisconnected once the room is left, and ReleaseSession. */
  function GoOffline(): Code { Then(Pool(), Then(Pool(), Replace(ServiceLock))) }

  /** A job stored in its queue and popped again, run, and its queue pushed to the global queue. */
  function Respond(req: Request, q: nat): Code {
    var job := Then(Pool(), Then(Work(req), Pool()));
    Then(Use(QueueLock(q)), Then(Use(QueueLock(q)), Then(job, Use(GlobalLock))))
  }

  /** Requests, completions and set-up. */
  function CodeOf(req: Request, q: nat): Code {
    match req
    case SendDone(s) => Then(Buffers(), Guard(SessionLock(s), RegisterSend(s)))
    case Gone(r, users, last) => Then(RemoveUser(r, users, last), GoOffline())
    case GoneAlone => GoOffline()
    case GlobalJobs => Then(Use(GlobalLock), Then(Use(QueueLock(q)), Use(GlobalLock)))
    case Connected => Use(ServiceLock)
    case ServiceBroadcast(users) => Guard(ServiceLock, SendAll(users))
    case _ => Respond(req, q)
  }

  // ---------------------------------------------------------------- nesting by rank

  predicate MayTake(held: seq<Lock>, l: Lock) {
    l in held || forall i :: 0 <= i < |held| ==> Rank(held[i]) < Rank(l)
  }

  /** Run with held already taken, the code takes each further lock in rank, or has it already. */
  predicate Ranked(code: Code, held: seq<Lock>) {
    match code
    case Skip => true
    case Then(a, b) => Ranked(a, held) && Ranked(b, held)
    case Guard(l, body) => MayTake(held, l) && Ranked(body, held + [l])
  }

  lemma {:induction false} UseRanked(l: Lock, held: seq<Lock>)
    requires MayTake(held, l)
    ensures Ranked(Use(l), held)
  {
  }

  lemma {:induction false} ReplaceRanked(l: Lock, held: seq<Lock>)
    requires MayTake(held, l) && Rank(l) < 3 && forall i :: 0 <= i < |held| ==> Rank(held[i]) < 3
    ensures Ranked(Replace(l), held)
  {
  }

  lemma {:induction false} RegisterRanked(s: nat, held: seq<Lock>)
    requires forall i :: 0 <= i < |held| ==> Rank(held[i]) < 3
    requires MayTake(held, SessionLock(s))
    ensures Ranked(RegisterSend(s), held)
  {
  }

  lemma {:induction false} SendRanked(s: nat, held: seq<Lock>)
    requires forall i :: 0 <= i < |held| ==> Rank(held[i]) < 2
    ensures Ranked(MakeAndSend(s), held)
  {
    UseRanked(BufferLock, held);
    UseRanked(SessionLock(s), held);
    RegisterRanked(s, held);
    assert Ranked(Send(s), held);
  }

  lemma {:induction false} SendAllRanked(users: seq<nat>, held: seq<Lock>)
    requires forall i :: 0 <= i < |held| ==> Rank(held[i]) < 2
    ensures Ranked(SendAll(users), held)
  {
    if users != [] {
      SendRanked(users[0], held);
      SendAllRanked(users[1..], held);
    }
  }

  lemma {:induction false} BroadCastRanked(r: nat, users: seq<nat>, held: seq<Lock>)
    requires held == [] || held == [RoomLock(r)]
    ensures Ranked(BroadCast(r, users), held)
  {
    SendAllRanked(users, held + [RoomLock(r)]);
  }

  lemma {:induction false} RemoveUserRanked(r: nat, users: seq<nat>, last: bool)
    ensures Ranked(RemoveUser(r, users, last), [])
  {
    var held := [] + [RoomLock(r)];
    UseRanked(ConnectionLock, held);
    UseRanked(BufferLock, held);
    ReplaceRanked(TableLock, held);
    BroadCastRanked(r, users, held);
    var ending := if last then Replace(TableLock) else BroadCast(r, users);
    assert Ranked(Then(Buffers(), Then(ending, Pool())), held);
  }

  /** What every kind of job does nests by rank, and so does the rest of the server's code. */
  lemma {:induction false} WorkRanked(req: Request)
    ensures Ranked(Work(req), [])
  {
    match req
    case Login(s) =>
      UseRanked(LoginLock, []);
      SendRanked(s, []);
    case Simple(s) => SendRanked(s, []);
    case CreateRoom(s, r) =>
      UseRanked(CreateLock, []);
      UseRanked(RoomLock(r), []);
      ReplaceRanked(TableLock, []);
      SendRanked(s, []);
      assert Ranked(Then(Replace(TableLock), MakeAndSend(s)), []);
    case JoinRoom(s, r, users) =>
      ReplaceRanked(RoomLock(r), []);
      BroadCastRanked(r, users, []);
      SendRanked(s, []);
      assert Ranked(Then(BroadCast(r, users), MakeAndSend(s)), []);
    case Chat(r, users) => BroadCastRanked(r, users, []);
    case RoomOut(s, r, users, last) =>
      RemoveUserRanked(r, users, last);
      SendRanked(s, []);
    case _ =>
  }

  lemma {:induction false} OfflineRanked()
    ensures Ranked(GoOffline(), [])
  {
    UseRanked(ConnectionLock, []);
    ReplaceRanked(ServiceLock, []);
    assert Ranked(Then(Pool(), Replace(ServiceLock)), []);
  }

  lemma {:induction false} ServerRanked(req: Request, q: nat)
    ensures Ranked(CodeOf(req, q), [])
  {
    UseRanked(ConnectionLock, []);
    match req
    case SendDone(s) =>
      UseRanked(BufferLock, []);
      RegisterRanked(s, [] + [SessionLock(s)]);
      assert Ranked(Guard(SessionLock(s), RegisterSend(s)), []);
    case Gone(r, users, last) =>
      RemoveUserRanked(r, users, last);
      OfflineRanked();
    case GoneAlone => OfflineRanked();
    case GlobalJobs =>
      UseRanked(GlobalLock, []);
      UseRanked(QueueLock(q), []);
      assert Ranked(Then(Use(QueueLock(q)), Use(GlobalLock)), []);
    case Connected => UseRanked(ServiceLock, []);
    case ServiceBroadcast(users) => SendAllRanked(users, [] + [ServiceLock]);
    case _ =>
      WorkRanked(req);
      UseRanked(QueueLock(q), []);
      UseRanked(GlobalLock, []);
      var job := Then(Pool(), Then(Work(req), Pool()));
      assert Ranked(Then(Work(req), Pool()), []);
      assert Ranked(job, []);
      assert Ranked(Then(Use(QueueLock(q)), Then(job, Use(GlobalLock))), []);
  }

  // ---------------------------------------------------------------- threads

  /** What a thread has yet to do: run a piece of code, or leave a scope. */
  datatype Task = Run(code: Code) | Leave(lock: Lock)

  datatype Thread = Thread(held: seq<Lock>, tasks: seq<Task>)

  predicate Blocked(threads: seq<Thread>, t: nat)
    requires t < |threads|
  {
    exists u :: 0 <= u < |threads| && u != t && WaitsFor(threads[t], threads[u])
  }

  /** t's next step takes a lock that u holds. */
  predicate WaitsFor(t: Thread, u: Thread) {
    t.tasks != [] && t.tasks[0].Run? && t.tasks[0].code.Guard? && t.tasks[0].code.lock in u.held
  }

  function Next(th: Thread): Thread
    requires th.tasks != []
  {
    var rest := th.tasks[1..];
    match th.tasks[0]
    case Run(Skip) => th.(tasks := rest)
    case Run(Then(a, b)) => th.(tasks := [Run(a), Run(b)] + rest)
    case Run(Guard(l, body)) => Thread(th.held + [l], [Run(body), Leave(l)] + rest)
    case Leave(l) => Thread(if th.held == [] then [] else th.held[..|th.held| - 1], rest)
  }

  ghost predicate Step(s: seq<Thread>, t: nat, s': seq<Thread>) {
    t < |s| && s[t].tasks != [] && !Blocked(s, t) && s' == s[t := Next(s[t])]
  }

  ghost predicate Path(states: seq<seq<Thread>>, moves: seq<nat>) { Linked(Step, states, moves) }

  /** Each thread starts with nothing held and any list of requests to serve. */
  ghost predicate Init(s: seq<Thread>) {
    forall t :: 0 <= t < |s| ==>
      s[t].held == [] && forall k :: 0 <= k < |s[t].tasks| ==> ServerTask(s[t].tasks[k])
  }

  ghost predicate ServerTask(task: Task) { exists req, q :: task == Run(CodeOf(req, q)) }

  /** The tasks leave exactly the scopes whose locks are held, innermost first, and nest by rank. */
  predicate Fits(tasks: seq<Task>, held: seq<Lock>) {
    if tasks == [] then held == []
    else match tasks[0]
      case Run(code) => Ranked(code, held) && Fits(tasks[1..], held)
      case Leave(l) => held != [] && held[|held| - 1] == l && Fits(tasks[1..], held[..|held| - 1])
  }

  lemma {:induction false} InitFits(tasks: seq<Task>)
    requires forall k :: 0 <= k < |tasks| ==> ServerTask(tasks[k])
    ensures Fits(tasks, [])
  {
    if tasks != [] {
      assert ServerTask(tasks[0]);
      var req, q :| tasks[0] == Run(CodeOf(req, q));
      ServerRanked(req, q);
      InitFits(tasks[1..]);
    }
  }

  lemma {:induction false} FitsKept(th: Thread)
    requires th.tasks != [] && Fits(th.tasks, th.held)
    ensures Fits(Next(th).tasks, Next(th).held)
  {
  }

  lemma {:induction false} RunFits(states: seq<seq<Thread>>, moves: seq<nat>, i: nat, t: nat)
    requires Path(states, moves) && Init(states[0]) && i < |states| && t < |states[i]|
    ensures Fits(states[i][t].tasks, states[i][t].held)
  {
    if i == 0 {
      InitFits(states[0][t].tasks);
    } else {
      assert Step(states[i - 1], moves[i - 1], states[i]);
      RunFits(states, moves, i - 1, t);
      if t == moves[i - 1] { FitsKept(states[i - 1][t]); }
    }
  }

  /** No lock is held by two threads. */
  ghost predicate Exclusive(s: seq<Thread>) {
    forall t, u, l :: 0 <= t < |s| && 0 <= u < |s| && t != u && l in s[t].held ==> l !in s[u].held
  }

  lemma {:induction false} ExclusiveKept(s: seq<Thread>, t: nat, s': seq<Thread>)
    requires Exclusive(s) && Step(s, t, s')
    ensures Exclusive(s')
  {
  }

  lemma {:induction false} RunExclusive(states: seq<seq<Thread>>, moves: seq<nat>, i: nat)
    requires Path(states, moves) && Init(states[0]) && i < |states|
    ensures Exclusive(states[i])
  {
    if i > 0 {
      RunExclusive(states, moves, i - 1);
      assert Step(states[i - 1], moves[i - 1], states[i]);
      ExclusiveKept(states[i - 1], moves[i - 1], states[i]);
    }
  }

  /** A thread that has nothing left to do holds nothing. */
  lemma {:induction false} DoneHoldsNothing(states: seq<seq<Thread>>, moves: seq<nat>, i: nat, t: nat)
    requires Path(states, moves) && Init(states[0]) && i < |states| && t < |states[i]| && states[i][t].tasks == []
    ensures states[i][t].held == []
  {
    RunFits(states, moves, i, t);
  }

  /** How high a thread's next step reaches: one above the rank of the lock it takes, if it takes one. */
  function Reach(th: Thread): nat {
    if th.tasks != [] && th.tasks[0].Run? && th.tasks[0].code.Guard? then Rank(th.tasks[0].code.lock) + 1 else 0
  }

  lemma {:induction false} Highest(s: seq<Thread>, w: set<nat>) returns (t: nat)
    requires w != {} && forall x :: x in w ==> x < |s|
    ensures t in w && forall x :: x in w ==> Reach(s[x]) <= Reach(s[t])
    decreases w
  {
    var x :| x in w;
    if w == {x} {
      t := x;
    } else {
      var y := Highest(s, w - {x});
      t := if Reach(s[x]) > Reach(s[y]) then x else y;
    }
  }

  /** Whoever is waited for, and waits itself, reaches higher. */
  lemma {:induction false} WaitsUpward(s: seq<Thread>, t: nat, u: nat, v: nat)
    requires t < |s| && u < |s| && v < |s| && u != v && Exclusive(s) && Fits(s[u].tasks, s[u].held)
    requires WaitsFor(s[t], s[u]) && WaitsFor(s[u], s[v])
    ensures Reach(s[t]) < Reach(s[u])
  {
  }

  /** In every state of every run, every set of threads has a member that waits for no other member:
      no set of threads waits in a cycle, however long. */
  lemma {:induction false} NoDeadlock(states: seq<seq<Thread>>, moves: seq<nat>, i: nat, w: set<nat>)
    returns (t: nat)
    requires Path(states, moves) && Init(states[0]) && i < |states|
    requires w != {} && forall x :: x in w ==> x < |states[i]|
    ensures t in w && forall u :: u in w && u != t ==> !WaitsFor(states[i][t], states[i][u])
  {
    var s := states[i];
    RunExclusive(states, moves, i);
    t := Highest(s, w);
    if u :| u in w && u != t && WaitsFor(s[t], s[u]) {
      if v :| v in w && v != u && WaitsFor(s[u], s[v]) {
        RunFits(states, moves, i, u);
        WaitsUpward(s, t, u, v);
        assert false;
      }
      t := u;
    }
  }

  /** So while any thread has work left, some thread can take its next step. */
  lemma {:induction false} AlwaysProgress(states: seq<seq<Thread>>, moves: seq<nat>, i: nat, busy: nat)
    returns (t: nat)
    requires Path(states, moves) && Init(states[0]) && i < |states|
    requires busy < |states[i]| && states[i][busy].tasks != []
    ensures t < |states[i]| && states[i][t].tasks != [] && !Blocked(states[i], t)
  {
    var s := states[i];
    var w := set x | 0 <= x < |s| && s[x].tasks != [];
    assert busy in w;
    t := NoDeadlock(states, moves, i, w);
    forall u | 0 <= u < |s| && u != t
      ensures !WaitsFor(s[t], s[u])
    {
      if u !in w {
        RunFits(states, moves, i, u);
      }
    }
  }

  // ---------------------------------------------------------------- everything ends

  function Steps(code: Code): nat {
    match code
    case Skip => 1
    case Then(a, b) => 1 + Steps(a) + Steps(b)
    case Guard(_, body) => 2 + Steps(body)
  }

  function TaskSteps(task: Task): nat { if task.Run? then Steps(task.code) else 1 }

  /** The steps a thread has yet to take. */
  function Due(th: Thread): nat { Sum(th.tasks, TaskSteps) }

  lemma {:induction false} DueFalls(th: Thread)
    requires th.tasks != []
    ensures Due(Next(th)) + 1 == Due(th)
  {
    var rest := th.tasks[1..];
    match th.tasks[0]
    case Run(Skip) =>
    case Run(Then(a, b)) =>
      SumConcat([Run(a), Run(b)], rest, TaskSteps);
      assert [Run(a), Run(b)][1..] == [Run(b)];
    case Run(Guard(l, body)) =>
      SumConcat([Run(body), Leave(l)], rest, TaskSteps);
      assert [Run(body), Leave(l)][1..] == [Leave(l)];
    case Leave(_) =>
  }

  /** Every run takes exactly as many steps as it has done work, so by AlwaysProgress every thread comes
      to the end of its requests, whatever the interleaving. */
  lemma {:induction false} RunLength(states: seq<seq<Thread>>, moves: seq<nat>, i: nat)
    requires Path(states, moves) && i < |states|
    ensures Sum(states[i], Due) + i == Sum(states[0], Due)
  {
    if i > 0 {
      RunLength(states, moves, i - 1);
      var s, t := states[i - 1], moves[i - 1];
      assert Step(s, t, states[i]);
      DueFalls(s[t]);
      SumUpdate(s, t, Next(s[t]), Due);
    }
  }

  // ---------------------------------------------------------------- what the room lock covers

  /** Every lock is taken inside a scope that holds l, or is l. */
  predicate Covered(code: Code, l: Lock) {
    match code
    case Skip => true
    case Then(a, b) => Covered(a, l) && Covered(b, l)
    case Guard(k, _) => k == l
  }

  /** The locks the code takes, in order. */
  function Taken(code: Code): seq<Lock> {
    match code
    case Skip => []
    case Then(a, b) => Taken(a) + Taken(b)
    case Guard(l, body) => [l] + Taken(body)
  }

  /** BroadCast and RemoveUser run under the room's lock from end to end, and a broadcast sends to each
      member in turn. */
  lemma {:induction false} RoomCovers(r: nat, users: seq<nat>, last: bool)
    ensures Covered(BroadCast(r, users), RoomLock(r)) && Covered(RemoveUser(r, users, last), RoomLock(r))
    ensures Taken(BroadCast(r, users)) == [RoomLock(r)] + SendsTo(users)
    ensures Taken(RemoveUser(r, users, last)) == Removes(r, users, last)
  {
    SendsTaken(users);
    UseTaken(ConnectionLock);
    UseTaken(BufferLock);
    var ending := if last then Replace(TableLock) else BroadCast(r, users);
    assert Taken(ending) == if last then [TableLock, BufferLock] else [RoomLock(r)] + SendsTo(users);
    assert Taken(Then(ending, Pool())) == Taken(ending) + [ConnectionLock];
    assert Taken(Then(Buffers(), Then(ending, Pool()))) == [BufferLock] + (Taken(ending) + [ConnectionLock]);
    assert Taken(Then(Pool(), Then(Buffers(), Then(ending, Pool()))))
        == [ConnectionLock] + ([BufferLock] + (Taken(ending) + [ConnectionLock]));
  }

  lemma {:induction false} UseTaken(l: Lock)
    ensures Taken(Use(l)) == [l]
  {
    assert Taken(Skip) == [];
  }

  /** A packet made and sent: the buffer pool's lock, the session's to queue and again to drain, and the
      buffer pool's. */
  function SendTo(s: nat): seq<Lock> { [BufferLock, SessionLock(s), SessionLock(s), BufferLock] }

  function SendsTo(users: seq<nat>): seq<Lock> {
    if users == [] then [] else SendTo(users[0]) + SendsTo(users[1..])
  }

  function Removes(r: nat, users: seq<nat>, last: bool): seq<Lock> {
    [RoomLock(r), ConnectionLock, BufferLock]
    + (if last then [TableLock, BufferLock] else [RoomLock(r)] + SendsTo(users)) + [ConnectionLock]
  }

  /** The locks each handler takes, in order. */
  function Handler(req: Request): seq<Lock> {
    match req
    case Login(s) => [LoginLock] + SendTo(s)
    case Simple(s) => SendTo(s)
    case CreateRoom(s, r) => [CreateLock, RoomLock(r), TableLock, BufferLock] + SendTo(s)
    case JoinRoom(s, r, users) => [RoomLock(r), BufferLock] + [RoomLock(r)] + SendsTo(users) + SendTo(s)
    case Chat(r, users) => [RoomLock(r)] + SendsTo(users)
    case RoomOut(s, r, users, last) => Removes(r, users, last) + SendTo(s)
    case _ => []
  }

  lemma {:induction false} HandlerTakes(req: Request)
    ensures Taken(Work(req)) == Handler(req)
  {
    match req
    case Login(s) => SendTaken(s); UseTaken(LoginLock);
    case Simple(s) => SendTaken(s);
    case CreateRoom(s, r) =>
      SendTaken(s);
      UseTaken(CreateLock);
      UseTaken(RoomLock(r));
      UseTaken(BufferLock);
      assert Taken(Replace(TableLock)) == [TableLock, BufferLock];
      assert Taken(Then(Replace(TableLock), MakeAndSend(s))) == [TableLock, BufferLock] + SendTo(s);
      assert Taken(Then(Use(RoomLock(r)), Then(Replace(TableLock), MakeAndSend(s))))
          == [RoomLock(r)] + ([TableLock, BufferLock] + SendTo(s));
    case JoinRoom(s, r, users) =>
      SendTaken(s);
      RoomCovers(r, users, false);
      UseTaken(BufferLock);
      assert Taken(Replace(RoomLock(r))) == [RoomLock(r), BufferLock];
      assert Taken(Then(BroadCast(r, users), MakeAndSend(s))) == [RoomLock(r)] + SendsTo(users) + SendTo(s);
    case Chat(r, users) => RoomCovers(r, users, false);
    case RoomOut(s, r, users, last) => SendTaken(s); RoomCovers(r, users, last);
    case _ =>
  }

  /** And so with completions, disconnects and the queues. */
  lemma {:induction false} ServerTakes(req: Request, q: nat)
    ensures Taken(CodeOf(req, q)) ==
      match req
      case SendDone(s) => [BufferLock, SessionLock(s), SessionLock(s), BufferLock]
      case Gone(r, users, last) => Removes(r, users, last) + [ConnectionLock, ConnectionLock, ServiceLock, BufferLock]
      case GoneAlone => [ConnectionLock, ConnectionLock, ServiceLock, BufferLock]
      case GlobalJobs => [GlobalLock, QueueLock(q), GlobalLock]
      case Connected => [ServiceLock]
      case ServiceBroadcast(users) => [ServiceLock] + SendsTo(users)
      case _ => [QueueLock(q), QueueLock(q), ConnectionLock] + Handler(req) + [ConnectionLock, GlobalLock]
  {
    match req
    case SendDone(s) =>
      UseTaken(BufferLock);
      UseTaken(SessionLock(s));
      assert Taken(RegisterSend(s)) == [SessionLock(s), BufferLock];
      assert Taken(Guard(SessionLock(s), RegisterSend(s))) == [SessionLock(s)] + [SessionLock(s), BufferLock];
    case Gone(r, users, last) => RoomCovers(r, users, last); OfflineTaken();
    case GoneAlone => OfflineTaken();
    case GlobalJobs =>
      UseTaken(QueueLock(q));
      UseTaken(GlobalLock);
      assert Taken(Then(Use(QueueLock(q)), Use(GlobalLock))) == [QueueLock(q), GlobalLock];
    case Connected => UseTaken(ServiceLock);
    case ServiceBroadcast(users) => SendsTaken(users);
    case _ => RespondTakes(req, q);
  }

  lemma {:induction false} RespondTakes(req: Request, q: nat)
    ensures Taken(Respond(req, q))
      == [QueueLock(q), QueueLock(q), ConnectionLock] + Handler(req) + [ConnectionLock, GlobalLock]
  {
    UseTaken(ConnectionLock);
    UseTaken(QueueLock(q));
    UseTaken(GlobalLock);
    HandlerTakes(req);
    var job := Then(Pool(), Then(Work(req), Pool()));
    assert Taken(Then(Work(req), Pool())) == Handler(req) + [ConnectionLock];
    assert Taken(job) == [ConnectionLock] + (Handler(req) + [ConnectionLock]);
    assert Taken(Then(job, Use(GlobalLock))) == Taken(job) + [GlobalLock];
    assert Taken(Then(Use(QueueLock(q)), Then(job, Use(GlobalLock)))) == [QueueLock(q)] + (Taken(job) + [GlobalLock]);
  }

  lemma {:induction false} OfflineTaken()
    ensures Taken(GoOffline()) == [ConnectionLock, ConnectionLock, ServiceLock, BufferLock]
  {
    UseTaken(ConnectionLock);
    UseTaken(BufferLock);
    assert Taken(Replace(ServiceLock)) == [ServiceLock, BufferLock];
    assert Taken(Then(Pool(), Replace(ServiceLock))) == [ConnectionLock] + [ServiceLock, BufferLock];
  }

  lemma {:induction false} SendTaken(s: nat)
    ensures Taken(MakeAndSend(s)) == SendTo(s)
  {
    var l := SessionLock(s);
    UseTaken(l);
    UseTaken(BufferLock);
    assert Taken(RegisterSend(s)) == [l, BufferLock];
    assert Taken(Send(s)) == [l] + [l, BufferLock];
  }

  lemma {:induction false} SendsTaken(users: seq<nat>)
    ensures Taken(SendAll(users)) == SendsTo(users)
  {
    if users != [] {
      SendTaken(users[0]);
      SendsTaken(users[1..]);
    }
  }
}
