/** ServerCore/JobQueue with delay-0 jobs, the only kind the server posts: the counter
    _jobCount is the baton that decides which thread executes a queue.  Every atomic
    operation, and every call into a LockQueue, is one step of one thread. */
module JobScheduler {
  import opened Runs
  import opened Tally

  type JobId = nat
  type QueueId = nat

  /** enqueued and ran are histories: the order in which _jobs.Push stored jobs and the order
      in which their callbacks were invoked. */
  datatype Queue = Queue(count: int, jobs: seq<JobId>, enqueued: seq<JobId>, ran: seq<JobId>)

  datatype Shared = Shared(queues: seq<Queue>, global: seq<QueueId>)

  /** Where a thread stands in Execute; LCurrentJobQueue is null exactly when NotExecuting. */
  datatype Exec =
    | NotExecuting
    | Loop(q: QueueId)                                   // about to PopAll
    | Batch(q: QueueId, batch: seq<JobId>, invoked: nat) // in the for loop, then fetch_sub
    | Timed(q: QueueId)                                  // about to compare LEndTickCount
    | Requeue(q: QueueId)                                // about to GlobalPush

  /** Where it stands in Push, possibly called by a job it is executing. */
  datatype Pushing =
    | NotPushing
    | Counted(q: QueueId, job: JobId, first: bool)       // after fetch_add; first: it returned 0
    | Elected(q: QueueId)                                // stored the job, first: must schedule q

  datatype Thread = Thread(exec: Exec, push: Pushing)

  datatype State = State(sh: Shared, threads: seq<Thread>)

  datatype Action =
    | BeginPush(q: QueueId, job: JobId)
    | PopGlobal                      // the loop of ExcuteGlobalJobs
    | OutsidePush(q: QueueId)        // JobQueue::GlobalPush called directly, as RESPONSE_END does
    | Advance(timeUp: bool)

  datatype Move = Move(t: nat, a: Action)

  predicate Enabled(sh: Shared, th: Thread, a: Action) {
    match a
    case BeginPush(q, _) =>
      && q < |sh.queues| && th.push.NotPushing?
      && (th.exec.NotExecuting? || (th.exec.Batch? && th.exec.invoked > 0))
    case PopGlobal => th.push.NotPushing? && th.exec.NotExecuting?
    case OutsidePush(q) => q < |sh.queues|
    case Advance(_) => true
  }

  predicate ThreadOk(sh: Shared, th: Thread) {
    && (!th.exec.NotExecuting? ==> th.exec.q < |sh.queues|)
    && (!th.push.NotPushing? ==> th.push.q < |sh.queues|)
    && (th.exec.Batch? ==> th.exec.invoked <= |th.exec.batch|)
  }

  predicate SharedOk(sh: Shared) {
    forall i :: 0 <= i < |sh.global| ==> sh.global[i] < |sh.queues|
  }

  function AdvancePush(sh: Shared, th: Thread): (Shared, Thread)
    requires ThreadOk(sh, th) && !th.push.NotPushing?
  {
    match th.push
    case Counted(q, job, first) =>
      var qu := sh.queues[q];
      (sh.(queues := sh.queues[q := qu.(jobs := qu.jobs + [job], enqueued := qu.enqueued + [job])]),
       th.(push := if first then Elected(q) else NotPushing))
    case Elected(q) =>
      if th.exec.NotExecuting? then (sh, Thread(Loop(q), NotPushing))
      else (sh.(global := sh.global + [q]), th.(push := NotPushing))
  }

  function AdvanceExec(sh: Shared, th: Thread, timeUp: bool): (Shared, Thread)
    requires ThreadOk(sh, th)
  {
    match th.exec
    case NotExecuting => (sh, th)
    case Loop(q) =>
      (sh.(queues := sh.queues[q := sh.queues[q].(jobs := [])]),
       th.(exec := Batch(q, sh.queues[q].jobs, 0)))
    case Batch(q, batch, n) =>
      var qu := sh.queues[q];
      if n < |batch| then
        (sh.(queues := sh.queues[q := qu.(ran := qu.ran + [batch[n]])]),
         th.(exec := Batch(q, batch, n + 1)))
      else
        (sh.(queues := sh.queues[q := qu.(count := qu.count - |batch|)]),
         th.(exec := if qu.count == |batch| then NotExecuting else Timed(q)))
    case Timed(q) => (sh, th.(exec := if timeUp then Requeue(q) else Loop(q)))
    case Requeue(q) => (sh.(global := sh.global + [q]), th.(exec := NotExecuting))
  }

  /** One step of one thread; a Push in progress runs before the Execute that called it resumes. */
  function Act(sh: Shared, th: Thread, a: Action): (Shared, Thread)
    requires SharedOk(sh) && ThreadOk(sh, th) && Enabled(sh, th, a)
  {
    match a
    case BeginPush(q, job) =>
      var qu := sh.queues[q];
      (sh.(queues := sh.queues[q := qu.(count := qu.count + 1)]),
       th.(push := Counted(q, job, qu.count == 0)))
    case PopGlobal =>
      if sh.global == [] then (sh, th)
      else (sh.(global := sh.global[1..]), th.(exec := Loop(sh.global[0])))
    case OutsidePush(q) => (sh.(global := sh.global + [q]), th)
    case Advance(timeUp) =>
      if th.push.NotPushing? then AdvanceExec(sh, th, timeUp) else AdvancePush(sh, th)
  }

  predicate Init(s: State) {
    && s.sh.global == []
    && (forall q :: 0 <= q < |s.sh.queues| ==> s.sh.queues[q] == Queue(0, [], [], []))
    && (forall t :: 0 <= t < |s.threads| ==> s.threads[t] == Thread(NotExecuting, NotPushing))
  }

  predicate Formed(s: State) {
    SharedOk(s.sh) && forall t :: 0 <= t < |s.threads| ==> ThreadOk(s.sh, s.threads[t])
  }

  ghost predicate Step(s: State, m: Move, s': State) {
    && Formed(s)
    && m.t < |s.threads| && Enabled(s.sh, s.threads[m.t], m.a)
    && var (sh', th') := Act(s.sh, s.threads[m.t], m.a);
       s' == State(sh', s.threads[m.t := th'])
  }

  ghost predicate Path(states: seq<State>, moves: seq<Move>) { Linked(Step, states, moves) }

  // ---------------------------------------------------------------- what is counted

  /** Counted in _jobCount but not yet stored. */
  function Half(q: QueueId): Thread -> nat {
    (th: Thread) => if th.push.Counted? && th.push.q == q then 1 else 0
  }

  /** Popped but not yet subtracted from _jobCount. */
  function Popped(q: QueueId): Thread -> nat {
    (th: Thread) => if th.exec.Batch? && th.exec.q == q then |th.exec.batch| else 0
  }

  predicate Executing(q: QueueId, th: Thread) { !th.exec.NotExecuting? && th.exec.q == q }

  /** Holds q: executes it, or is bound to schedule it. */
  function Baton(q: QueueId): Thread -> nat {
    (th: Thread) =>
      (if Executing(q, th) then 1 else 0)
      + (if (th.push.Elected? || (th.push.Counted? && th.push.first)) && th.push.q == q then 1 else 0)
  }

  /** All claims on q: held by threads, or lying in the global queue. */
  function Batons(s: State, q: QueueId): nat {
    Sum(s.threads, Baton(q)) + Sum(s.sh.global, Is(q))
  }

  /** Popped into some batch and not yet invoked, for job j. */
  function Waiting(q: QueueId, j: JobId): Thread -> nat {
    (th: Thread) =>
      if th.exec.Batch? && th.exec.q == q && th.exec.invoked <= |th.exec.batch|
      then multiset(th.exec.batch[th.exec.invoked..])[j] else 0
  }

  predicate Counts(s: State, q: QueueId)
    requires q < |s.sh.queues|
  {
    var qu := s.sh.queues[q];
    && qu.count == |qu.jobs| + Sum(s.threads, Half(q)) + Sum(s.threads, Popped(q))
    && (qu.count > 0 ==> Batons(s, q) > 0)
  }

  ghost predicate Conserved(s: State, q: QueueId)
    requires q < |s.sh.queues|
  {
    var qu := s.sh.queues[q];
    forall j: JobId :: multiset(qu.enqueued)[j]
      == multiset(qu.ran)[j] + multiset(qu.jobs)[j] + Sum(s.threads, Waiting(q, j))
  }

  ghost predicate Inv(s: State) {
    && Formed(s)
    && forall q :: 0 <= q < |s.sh.queues| ==> Counts(s, q) && Conserved(s, q)
  }

  lemma {:induction false} InitInv(s: State)
    requires Init(s)
    ensures Inv(s)
    ensures forall q :: 0 <= q < |s.sh.queues| ==> Batons(s, q) == 0
  {
    forall q | 0 <= q < |s.sh.queues|
      ensures Counts(s, q) && Conserved(s, q) && Batons(s, q) == 0
    {
      SumZero(s.threads, Half(q));
      SumZero(s.threads, Popped(q));
      SumZero(s.threads, Baton(q));
      forall j: JobId { SumZero(s.threads, Waiting(q, j)); }
    }
  }

  lemma {:induction false} FormedKept(s: State, m: Move, s': State)
    requires Step(s, m, s')
    ensures Formed(s') && |s'.sh.queues| == |s.sh.queues|
  {
  }

  /** A step creates a claim on q: the first push onto an idle queue, or a direct GlobalPush. */
  function Gain(sh: Shared, a: Action, q: QueueId): nat
    requires q < |sh.queues|
  {
    if (a.BeginPush? && a.q == q && sh.queues[q].count == 0) || (a.OutsidePush? && a.q == q) then 1 else 0
  }

  /** A step gives up a claim on q: fetch_sub found that everything counted has been done. */
  function Drop(sh: Shared, th: Thread, a: Action, q: QueueId): nat
    requires q < |sh.queues|
  {
    if a.Advance? && th.push.NotPushing? && th.exec.Batch? && th.exec.q == q
       && th.exec.invoked == |th.exec.batch| && sh.queues[q].count == |th.exec.batch|
    then 1 else 0
  }

  lemma {:induction false} GlobalEffect(sh: Shared, th: Thread, a: Action, q: QueueId)
    requires SharedOk(sh) && ThreadOk(sh, th) && Enabled(sh, th, a) && q < |sh.queues|
    ensures var (sh', th') := Act(sh, th, a);
            Sum(sh'.global, Is(q)) + Baton(q)(th')
            == Sum(sh.global, Is(q)) + Baton(q)(th) + Gain(sh, a, q) - Drop(sh, th, a, q)
  {
    if a.OutsidePush? { SumAppend(sh.global, a.q, Is(q)); }
    if th.push.Elected? { SumAppend(sh.global, th.push.q, Is(q)); }
    if th.exec.Requeue? { SumAppend(sh.global, th.exec.q, Is(q)); }
  }

  /** Claims on q appear and disappear only as Gain and Drop say. */
  lemma {:induction false} BatonsMove(s: State, m: Move, s': State, q: QueueId)
    requires Step(s, m, s') && q < |s.sh.queues|
    ensures Batons(s', q) == Batons(s, q) + Gain(s.sh, m.a, q) - Drop(s.sh, s.threads[m.t], m.a, q)
    ensures Baton(q)(s.threads[m.t]) <= Batons(s, q)
  {
    GlobalEffect(s.sh, s.threads[m.t], m.a, q);
    SumUpdate(s.threads, m.t, s'.threads[m.t], Baton(q));
    SumAtLeast(s.threads, m.t, Baton(q));
  }

  lemma {:induction false} CountEffect(sh: Shared, th: Thread, a: Action, q: QueueId)
    requires SharedOk(sh) && ThreadOk(sh, th) && Enabled(sh, th, a) && q < |sh.queues|
    ensures var (sh', th') := Act(sh, th, a);
            sh'.queues[q].count - |sh'.queues[q].jobs| - Half(q)(th') - Popped(q)(th')
            == sh.queues[q].count - |sh.queues[q].jobs| - Half(q)(th) - Popped(q)(th)
  {
  }

  lemma {:induction false} CountsKept(s: State, m: Move, s': State, q: QueueId)
    requires Inv(s) && Step(s, m, s') && q < |s.sh.queues|
    ensures Counts(s', q)
  {
    assert Counts(s, q);
    var th, th' := s.threads[m.t], s'.threads[m.t];
    CountEffect(s.sh, th, m.a, q);
    BatonsMove(s, m, s', q);
    SumUpdate(s.threads, m.t, th', Half(q));
    SumUpdate(s.threads, m.t, th', Popped(q));
    SumAtLeast(s.threads, m.t, Popped(q));
    FormedKept(s, m, s');
  }

  /** Stored jobs of q with id j that neither ran, nor wait in the queue, nor wait in this thread. */
  function Unaccounted(qu: Queue, th: Thread, q: QueueId, j: JobId): int {
    multiset(qu.enqueued)[j] - multiset(qu.ran)[j] - multiset(qu.jobs)[j] - Waiting(q, j)(th)
  }

  lemma {:induction false} ExecJobEffect(sh: Shared, th: Thread, timeUp: bool, q: QueueId, j: JobId)
    requires ThreadOk(sh, th) && q < |sh.queues|
    ensures var (sh', th') := AdvanceExec(sh, th, timeUp);
            Unaccounted(sh'.queues[q], th', q, j) == Unaccounted(sh.queues[q], th, q, j)
  {
    if Executing(q, th) {
      match th.exec
      case Batch(_, batch, n) =>
        if n < |batch| {
          assert batch[n..] == [batch[n]] + batch[n + 1..];
        } else {
          assert batch[n..] == [];
        }
      case Loop(_) => assert sh.queues[q].jobs[0..] == sh.queues[q].jobs;
      case _ =>
    }
  }

  lemma {:induction false} JobEffect(sh: Shared, th: Thread, a: Action, q: QueueId, j: JobId)
    requires SharedOk(sh) && ThreadOk(sh, th) && Enabled(sh, th, a) && q < |sh.queues|
    ensures var (sh', th') := Act(sh, th, a);
            Unaccounted(sh'.queues[q], th', q, j) == Unaccounted(sh.queues[q], th, q, j)
  {
    if a.Advance? && th.push.NotPushing? { ExecJobEffect(sh, th, a.timeUp, q, j); }
  }

  lemma {:induction false} ConservedKept(s: State, m: Move, s': State, q: QueueId)
    requires Inv(s) && Step(s, m, s') && q < |s.sh.queues|
    ensures q < |s'.sh.queues| && Conserved(s', q)
  {
    FormedKept(s, m, s');
    assert Conserved(s, q);
    forall j: JobId
      ensures multiset(s'.sh.queues[q].enqueued)[j]
        == multiset(s'.sh.queues[q].ran)[j] + multiset(s'.sh.queues[q].jobs)[j]
           + Sum(s'.threads, Waiting(q, j))
    {
      JobEffect(s.sh, s.threads[m.t], m.a, q, j);
      SumUpdate(s.threads, m.t, s'.threads[m.t], Waiting(q, j));
    }
  }

  lemma {:induction false} Preserve(s: State, m: Move, s': State)
    requires Inv(s) && Step(s, m, s')
    ensures Inv(s')
  {
    FormedKept(s, m, s');
    forall q | 0 <= q < |s.sh.queues|
      ensures Counts(s', q) && Conserved(s', q)
    {
      CountsKept(s, m, s', q);
      ConservedKept(s, m, s', q);
    }
  }

  lemma {:induction false} RunInv(states: seq<State>, moves: seq<Move>, i: nat)
    requires Path(states, moves) && Inv(states[0]) && i < |states|
    ensures Inv(states[i]) && |states[i].sh.queues| == |states[0].sh.queues|
  {
    if i > 0 {
      RunInv(states, moves, i - 1);
      assert Step(states[i - 1], moves[i - 1], states[i]);
      Preserve(states[i - 1], moves[i - 1], states[i]);
      FormedKept(states[i - 1], moves[i - 1], states[i]);
    }
  }

  /** Whatever direct GlobalPush calls are made and however many threads execute q at once:
      _jobCount never underflows; while it is above 0 some thread holds q or it lies in the global
      queue; no job runs twice; and when the count is 0 every stored job has run exactly once. */
  lemma {:induction false} RobustInEveryRun(states: seq<State>, moves: seq<Move>, i: nat, q: QueueId)
    requires Path(states, moves) && Init(states[0]) && i < |states| && q < |states[0].sh.queues|
    ensures q < |states[i].sh.queues|
    ensures var s := states[i];
            var qu := s.sh.queues[q];
            && qu.count == |qu.jobs| + Sum(s.threads, Half(q)) + Sum(s.threads, Popped(q))
            && qu.count >= 0
            && (forall t :: 0 <= t < |s.threads| ==> Popped(q)(s.threads[t]) <= qu.count)
            && (qu.count > 0 ==>
                  || q in s.sh.global
                  || exists t :: 0 <= t < |s.threads| && Baton(q)(s.threads[t]) > 0)
            && multiset(qu.ran) <= multiset(qu.enqueued)
            && (qu.count == 0 ==> multiset(qu.ran) == multiset(qu.enqueued))
  {
    InitInv(states[0]);
    RunInv(states, moves, i);
    var s := states[i];
    var qu := s.sh.queues[q];
    assert Counts(s, q) && Conserved(s, q);
    forall t | 0 <= t < |s.threads|
      ensures Popped(q)(s.threads[t]) <= qu.count
    {
      SumAtLeast(s.threads, t, Popped(q));
    }
    if qu.count > 0 {
      if Sum(s.threads, Baton(q)) > 0 {
        var t := SumWitness(s.threads, Baton(q));
      } else {
        var g := SumWitness(s.sh.global, Is(q));
        assert s.sh.global[g] == q;
      }
    } else {
      forall j: JobId
        ensures multiset(qu.ran)[j] == multiset(qu.enqueued)[j]
      {
        SumZero(s.threads, Waiting(q, j));
      }
    }
  }

  // ---------------------------------------------------------------- jobs do not nest

  /** As long as a thread executes something it executes the same queue: a Push from inside a job only
      queues, so a thread is never inside two jobs. */
  lemma {:induction false} OneQueueAtATime(states: seq<State>, moves: seq<Move>, i: nat, k: nat, t: nat)
    requires Path(states, moves) && i <= k < |states| && t < |states[i].threads|
    requires forall j {:trigger states[j]} :: i <= j <= k && t < |states[j].threads| ==>
               !states[j].threads[t].exec.NotExecuting?
    ensures t < |states[k].threads| && states[k].threads[t].exec.q == states[i].threads[t].exec.q
  {
    if i < k {
      OneQueueAtATime(states, moves, i, k - 1, t);
      assert Step(states[k - 1], moves[k - 1], states[k]);
      StaysOn(states[k - 1], moves[k - 1], states[k], t);
    }
  }

  /** A thread takes up a queue only from executing nothing, and goes on within a batch one job after
      the other. */
  lemma {:induction false} StaysOn(s: State, m: Move, s': State, t: nat)
    requires Step(s, m, s') && t < |s.threads|
    ensures t < |s'.threads|
    ensures var e, e' := s.threads[t].exec, s'.threads[t].exec;
            && (!e.NotExecuting? && !e'.NotExecuting? ==> e'.q == e.q)
            && (e.NotExecuting? ==> e'.NotExecuting? || e'.Loop?)
            && (e.Batch? && e.invoked < |e.batch| ==> e'.Batch? && e'.batch == e.batch && e'.invoked <= e.invoked + 1)
  {
  }

  // ---------------------------------------------------------------- one executor at a time

  /** Exactly one claim on q while anything is counted, and none otherwise. */
  predicate Single(s: State, q: QueueId)
    requires q < |s.sh.queues|
  {
    Batons(s, q) == if s.sh.queues[q].count > 0 then 1 else 0
  }

  predicate AtMostOne(s: State, q: QueueId) { Batons(s, q) <= 1 }

  predicate InBatch(q: QueueId, th: Thread) {
    th.exec.Batch? && th.exec.q == q && th.exec.invoked <= |th.exec.batch|
  }

  /** What was stored is what ran, then what the executor still has in hand, then what waits. */
  predicate Ordered(s: State, q: QueueId)
    requires q < |s.sh.queues|
  {
    var qu := s.sh.queues[q];
    && (forall t :: 0 <= t < |s.threads| && InBatch(q, s.threads[t]) ==>
          var e := s.threads[t].exec; qu.enqueued == qu.ran + e.batch[e.invoked..] + qu.jobs)
    && ((forall t :: 0 <= t < |s.threads| ==> !InBatch(q, s.threads[t])) ==> qu.enqueued == qu.ran + qu.jobs)
  }

  /** The single claim survives a step exactly when the step is not a direct GlobalPush of q. */
  lemma {:induction false} SingleKept(s: State, m: Move, s': State, q: QueueId)
    requires Inv(s) && Step(s, m, s') && q < |s.sh.queues| && Single(s, q)
    ensures q < |s'.sh.queues|
    ensures Single(s', q) <==> m.a != OutsidePush(q)
  {
    FormedKept(s, m, s');
    CountsKept(s, m, s', q);
    BatonsMove(s, m, s', q);
    SumAtLeast(s.threads, m.t, Popped(q));
  }

  /** The step makes a claim on q although there is one: a direct GlobalPush, or a Push that finds
      the count at 0 while somebody still holds q. */
  predicate Doubles(s: State, m: Move, q: QueueId) {
    q < |s.sh.queues| && Gain(s.sh, m.a, q) > 0 && Batons(s, q) > 0
  }

  /** A second claim appears exactly so. */
  lemma {:induction false} AtMostOneKept(s: State, m: Move, s': State, q: QueueId)
    requires Step(s, m, s') && q < |s.sh.queues| && AtMostOne(s, q)
    ensures AtMostOne(s', q) <==> !Doubles(s, m, q)
  {
    BatonsMove(s, m, s', q);
  }

  lemma {:induction false} OneHolder(s: State, q: QueueId, i: nat, j: nat)
    requires AtMostOne(s, q) && i < |s.threads| && j < |s.threads|
    requires Baton(q)(s.threads[i]) > 0 && Baton(q)(s.threads[j]) > 0
    ensures i == j
  {
    if i < j { SumPair(s.threads, i, j, Baton(q)); } else if j < i { SumPair(s.threads, j, i, Baton(q)); }
  }

  /** The stored order as one thread sees it: what ran, what it has in hand, what waits. */
  function Seen(qu: Queue, th: Thread, q: QueueId): seq<JobId> {
    if InBatch(q, th) then qu.ran + th.exec.batch[th.exec.invoked..] + qu.jobs else qu.ran + qu.jobs
  }

  lemma {:induction false} ExecutorOrder(sh: Shared, th: Thread, timeUp: bool, q: QueueId)
    requires ThreadOk(sh, th) && q < |sh.queues|
    ensures var (sh', th') := AdvanceExec(sh, th, timeUp);
            && sh'.queues[q].enqueued == sh.queues[q].enqueued
            && Seen(sh'.queues[q], th', q) == Seen(sh.queues[q], th, q)
            && (!Executing(q, th) ==> sh'.queues[q] == sh.queues[q] && !InBatch(q, th'))
  {
  }

  /** A step other than the executor's adds at most one job, at the end of both orders. */
  lemma {:induction false} StoreOrder(sh: Shared, th: Thread, a: Action, q: QueueId) returns (x: seq<JobId>)
    requires SharedOk(sh) && ThreadOk(sh, th) && Enabled(sh, th, a) && q < |sh.queues|
    requires a.Advance? ==> !th.push.NotPushing?
    ensures var (sh', th') := Act(sh, th, a);
            var qu, qu' := sh.queues[q], sh'.queues[q];
            && qu'.enqueued == qu.enqueued + x && qu'.jobs == qu.jobs + x && qu'.ran == qu.ran
            && (InBatch(q, th') <==> InBatch(q, th)) && (InBatch(q, th) ==> th'.exec == th.exec)
  {
    x := if a.Advance? && th.push.Counted? && th.push.q == q then [th.push.job] else [];
  }

  lemma {:induction false} ExecutorAlone(s: State, t: nat, q: QueueId)
    requires AtMostOne(s, q) && t < |s.threads| && Executing(q, s.threads[t])
    ensures forall j :: 0 <= j < |s.threads| && j != t ==> !InBatch(q, s.threads[j])
  {
    forall j | 0 <= j < |s.threads| && InBatch(q, s.threads[j])
      ensures j == t
    {
      OneHolder(s, q, t, j);
    }
  }

  lemma {:induction false} OrderedByExecutor(s: State, m: Move, s': State, q: QueueId)
    requires Inv(s) && Step(s, m, s') && q < |s.sh.queues| && AtMostOne(s, q) && Ordered(s, q)
    requires m.a.Advance? && s.threads[m.t].push.NotPushing?
    ensures q < |s'.sh.queues| && Ordered(s', q)
  {
    var th := s.threads[m.t];
    ExecutorOrder(s.sh, th, m.a.timeUp, q);
    if Executing(q, th) {
      ExecutorAlone(s, m.t, q);
      assert s.sh.queues[q].enqueued == Seen(s.sh.queues[q], th, q);
      assert s'.sh.queues[q].enqueued == Seen(s'.sh.queues[q], s'.threads[m.t], q);
    }
    forall j | 0 <= j < |s.threads| && j != m.t
      ensures InBatch(q, s.threads[j]) <==> InBatch(q, s'.threads[j])
    {
      assert s'.threads[j] == s.threads[j];
    }
  }

  lemma {:induction false} OrderedByOther(s: State, m: Move, s': State, q: QueueId)
    requires Inv(s) && Step(s, m, s') && q < |s.sh.queues| && Ordered(s, q)
    requires m.a.Advance? ==> !s.threads[m.t].push.NotPushing?
    ensures q < |s'.sh.queues| && Ordered(s', q)
  {
    var x := StoreOrder(s.sh, s.threads[m.t], m.a, q);
    var qu, qu' := s.sh.queues[q], s'.sh.queues[q];
    forall j | 0 <= j < |s.threads|
      ensures InBatch(q, s.threads[j]) <==> InBatch(q, s'.threads[j])
      ensures InBatch(q, s.threads[j]) ==> s'.threads[j].exec == s.threads[j].exec
    {
      assert j == m.t || s'.threads[j] == s.threads[j];
    }
    forall j | 0 <= j < |s'.threads| && InBatch(q, s'.threads[j])
      ensures var e := s'.threads[j].exec; qu'.enqueued == qu'.ran + e.batch[e.invoked..] + qu'.jobs
    {
      var e := s.threads[j].exec;
      assert qu.enqueued == qu.ran + e.batch[e.invoked..] + qu.jobs;
    }
    if forall j :: 0 <= j < |s'.threads| ==> !InBatch(q, s'.threads[j]) {
      assert qu.enqueued == qu.ran + qu.jobs;
    }
  }

  lemma {:induction false} OrderedKept(s: State, m: Move, s': State, q: QueueId)
    requires Inv(s) && Step(s, m, s') && q < |s.sh.queues| && AtMostOne(s, q) && Ordered(s, q)
    ensures q < |s'.sh.queues| && Ordered(s', q)
  {
    if m.a.Advance? && s.threads[m.t].push.NotPushing? {
      OrderedByExecutor(s, m, s', q);
    } else {
      OrderedByOther(s, m, s', q);
    }
  }

  /** At most one thread executes q; jobs ran once each, in the order _jobs.Push stored them; and at
      count 0 all of them have run. */
  ghost predicate Serial(s: State, q: QueueId) {
    && q < |s.sh.queues|
    && (forall t, u :: 0 <= t < |s.threads| && 0 <= u < |s.threads|
          ==> (Executing(q, s.threads[t]) && Executing(q, s.threads[u]) ==> t == u))
    && var qu := s.sh.queues[q]; qu.ran <= qu.enqueued && (qu.count == 0 ==> qu.ran == qu.enqueued)
  }

  lemma {:induction false} SerialState(s: State, q: QueueId)
    requires Inv(s) && q < |s.sh.queues| && AtMostOne(s, q) && Ordered(s, q)
    ensures Serial(s, q)
  {
    var qu := s.sh.queues[q];
    assert Counts(s, q);
    forall t, u | 0 <= t < |s.threads| && 0 <= u < |s.threads|
                  && Executing(q, s.threads[t]) && Executing(q, s.threads[u])
      ensures t == u
    {
      OneHolder(s, q, t, u);
    }
    if t :| 0 <= t < |s.threads| && InBatch(q, s.threads[t]) {
      var e := s.threads[t].exec;
      assert qu.enqueued == qu.ran + (e.batch[e.invoked..] + qu.jobs);
      SumAtLeast(s.threads, t, Popped(q));
    }
  }

  /** Whatever direct GlobalPush calls are made, as long as no claim on q is made while there is one:
      in every state of every run at most one thread executes q, and its jobs run in order. */
  lemma {:induction false} OneExecutorInEveryRun(states: seq<State>, moves: seq<Move>, i: nat, q: QueueId)
    requires Path(states, moves) && Init(states[0]) && i < |states| && q < |states[0].sh.queues|
    requires forall k {:trigger moves[k]} :: 0 <= k < i ==> !Doubles(states[k], moves[k], q)
    ensures q < |states[i].sh.queues| && AtMostOne(states[i], q) && Ordered(states[i], q) && Serial(states[i], q)
  {
    InitInv(states[0]);
    RunInv(states, moves, i);
    if i > 0 {
      OneExecutorInEveryRun(states, moves, i - 1, q);
      RunInv(states, moves, i - 1);
      AtMostOneKept(states[i - 1], moves[i - 1], states[i], q);
      OrderedKept(states[i - 1], moves[i - 1], states[i], q);
    }
    SerialState(states[i], q);
  }

  lemma {:induction false} SingleInEveryRun(states: seq<State>, moves: seq<Move>, i: nat, q: QueueId)
    requires Path(states, moves) && Init(states[0]) && i < |states| && q < |states[0].sh.queues|
    requires forall k :: 0 <= k < i ==> moves[k].a != OutsidePush(q)
    ensures q < |states[i].sh.queues| && Single(states[i], q)
    ensures i < |moves| && moves[i].a != OutsidePush(q) ==> !Doubles(states[i], moves[i], q)
  {
    InitInv(states[0]);
    RunInv(states, moves, i);
    if i > 0 {
      SingleInEveryRun(states, moves, i - 1, q);
      RunInv(states, moves, i - 1);
      SingleKept(states[i - 1], moves[i - 1], states[i], q);
    }
  }

  /** With jobs pushed only through Push that is always so, and a claim on q exists exactly while
      _jobCount is above 0. */
  lemma {:induction false} SerialInEveryRun(states: seq<State>, moves: seq<Move>, i: nat, q: QueueId)
    requires Path(states, moves) && Init(states[0]) && i < |states| && q < |states[0].sh.queues|
    requires forall k :: 0 <= k < i ==> moves[k].a != OutsidePush(q)
    ensures q < |states[i].sh.queues| && Single(states[i], q) && Ordered(states[i], q) && Serial(states[i], q)
  {
    SingleInEveryRun(states, moves, i, q);
    forall k | 0 <= k < i ensures !Doubles(states[k], moves[k], q) { SingleInEveryRun(states, moves, k, q); }
    OneExecutorInEveryRun(states, moves, i, q);
  }

  // ---------------------------------------------------------------- RESPONSE_END

  predicate Touches(m: Move, q: QueueId) { (m.a.BeginPush? || m.a.OutsidePush?) && m.a.q == q }

  /** How far the thread has come with the only job of q: counted, stored, or popped. */
  predicate Carrying(qu: Queue, th: Thread, q: QueueId) {
    if th.exec.NotExecuting? then
      && (th.push.Counted? || th.push.Elected?) && th.push.q == q
      && (th.push.Counted? ==> th.push.first && qu.jobs == []) && (th.push.Elected? ==> |qu.jobs| == 1)
    else
      && th.exec.q == q && (!th.push.NotPushing? ==> th.push.q != q)
      && (th.exec.Loop? || th.exec.Batch?)
      && (th.exec.Loop? ==> th.push.NotPushing? && |qu.jobs| == 1)
      && (th.exec.Batch? ==> |th.exec.batch| == 1 && qu.jobs == [])
  }

  predicate OneJob(s: State, t: nat, q: QueueId) {
    && t < |s.threads| && q < |s.sh.queues|
    && var qu := s.sh.queues[q];
       qu.count == 0 || (qu.count == 1 && Carrying(qu, s.threads[t], q))
  }

  lemma {:induction false} CarrierMoves(sh: Shared, th: Thread, a: Action, q: QueueId)
    requires SharedOk(sh) && ThreadOk(sh, th) && Enabled(sh, th, a) && q < |sh.queues|
    requires !(a.BeginPush? && a.q == q) && !(a.OutsidePush? && a.q == q)
    requires sh.queues[q].count == 1 && Carrying(sh.queues[q], th, q)
    ensures var (sh', th') := Act(sh, th, a);
            sh'.queues[q].count == 0 || (sh'.queues[q].count == 1 && Carrying(sh'.queues[q], th', q))
  {
  }

  /** While the one job of q is with t, no other thread has anything of q in hand. */
  lemma {:induction false} OthersAway(s: State, t: nat, u: nat, q: QueueId)
    requires Inv(s) && OneJob(s, t, q) && s.sh.queues[q].count == 1 && AtMostOne(s, q)
    requires u < |s.threads| && u != t
    ensures !Executing(q, s.threads[u]) && Half(q)(s.threads[u]) == 0
  {
    assert Counts(s, q);
    if Executing(q, s.threads[u]) { OneHolder(s, q, t, u); }
    SumAtLeast(s.threads, t, Popped(q));
    SumAtLeast(s.threads, u, Half(q));
    if t < u { SumPair(s.threads, t, u, Half(q)); } else { SumPair(s.threads, u, t, Half(q)); }
  }

  lemma {:induction false} OneJobKept(s: State, m: Move, s': State, t: nat, q: QueueId)
    requires Inv(s) && Step(s, m, s') && OneJob(s, t, q) && AtMostOne(s, q) && !Touches(m, q)
    ensures OneJob(s', t, q)
  {
    var th := s.threads[m.t];
    assert Counts(s, q);
    SumAtLeast(s.threads, m.t, Popped(q));
    if s.sh.queues[q].count == 1 {
      if m.t == t {
        CarrierMoves(s.sh, th, m.a, q);
      } else {
        OthersAway(s, t, m.t, q);
      }
    }
  }

  /** What RESPONSE_END does with the queue it makes: a thread that executes nothing pushes the one
      job, at move p, and when that Push has returned pushes the queue to the global queue, at g. */
  ghost predicate Responds(states: seq<State>, moves: seq<Move>, q: QueueId, p: nat, g: nat) {
    && p < g < |moves| < |states|
    && moves[p].t == moves[g].t < |states[p].threads|
    && moves[p].a.BeginPush? && moves[p].a.q == q && moves[g].a == OutsidePush(q)
    && states[p].threads[moves[p].t].exec.NotExecuting?
    && moves[g].t < |states[g].threads|
    && states[g].threads[moves[g].t] == Thread(NotExecuting, NotPushing)
    && forall k :: 0 <= k < |moves| && k != p && k != g ==> !Touches(moves[k], q)
  }

  lemma {:induction false} UntouchedUntil(states: seq<State>, moves: seq<Move>, i: nat, q: QueueId)
    requires Path(states, moves) && Init(states[0]) && i < |states| && q < |states[0].sh.queues|
    requires forall k :: 0 <= k < i ==> !Touches(moves[k], q)
    ensures q < |states[i].sh.queues| && Batons(states[i], q) == 0 && states[i].sh.queues[q].count == 0
  {
    InitInv(states[0]);
    RunInv(states, moves, i);
    assert Counts(states[i], q);
    if i > 0 {
      UntouchedUntil(states, moves, i - 1, q);
      RunInv(states, moves, i - 1);
      BatonsMove(states[i - 1], moves[i - 1], states[i], q);
    }
  }

  lemma {:induction false} RespondentBusy(states: seq<State>, moves: seq<Move>, i: nat, q: QueueId, p: nat, g: nat)
    requires Path(states, moves) && Init(states[0]) && q < |states[0].sh.queues|
    requires Responds(states, moves, q, p, g) && p < i <= g
    ensures OneJob(states[i], moves[p].t, q)
  {
    InitInv(states[0]);
    RunInv(states, moves, i - 1);
    RunInv(states, moves, i);
    assert Step(states[i - 1], moves[i - 1], states[i]);
    if i == p + 1 {
      UntouchedUntil(states, moves, p, q);
      assert Counts(states[p], q);
    } else {
      RespondentBusy(states, moves, i - 1, q, p, g);
      SerialInEveryRun(states, moves, i - 1, q);
      OneJobKept(states[i - 1], moves[i - 1], states[i], moves[p].t, q);
    }
  }

  /** So the server's own direct GlobalPush comes when nobody holds the queue, and no queue of a
      request ever has two executors. */
  lemma {:induction false} RespondentInEveryRun(states: seq<State>, moves: seq<Move>, i: nat, q: QueueId,
                                                p: nat, g: nat)
    requires Path(states, moves) && Init(states[0]) && i < |states| && q < |states[0].sh.queues|
    requires Responds(states, moves, q, p, g)
    ensures q < |states[i].sh.queues| && AtMostOne(states[i], q) && Serial(states[i], q)
  {
    UntouchedUntil(states, moves, p, q);
    RespondentBusy(states, moves, g, q, p, g);
    SerialInEveryRun(states, moves, g, q);
    assert !Doubles(states[p], moves[p], q) && !Doubles(states[g], moves[g], q);
    OneExecutorInEveryRun(states, moves, i, q);
  }

  // ---------------------------------------------------------------- a claim too many

  /** A run in which a queue is pushed to the global queue directly while idle, popped, and then
      given a job. */
  function Duplicated(k: nat): State {
    var idle, exec := Thread(NotExecuting, NotPushing), Thread(Loop(0), NotPushing);
    if k == 0 then State(Shared([Queue(0, [], [], [])], []), [idle, idle])
    else if k == 1 then State(Shared([Queue(0, [], [], [])], [0]), [idle, idle])
    else if k == 2 then State(Shared([Queue(0, [], [], [])], []), [idle, exec])
    else if k == 3 then State(Shared([Queue(1, [], [], [])], []), [idle.(push := Counted(0, 7, true)), exec])
    else if k == 4 then State(Shared([Queue(1, [7], [7], [])], []), [idle.(push := Elected(0)), exec])
    else State(Shared([Queue(1, [7], [7], [])], []), [exec, exec])
  }

  lemma {:induction false} DuplicatedBegins()
    ensures Step(Duplicated(0), Move(0, OutsidePush(0)), Duplicated(1))
    ensures Step(Duplicated(1), Move(1, PopGlobal), Duplicated(2))
    ensures Step(Duplicated(2), Move(0, BeginPush(0, 7)), Duplicated(3))
  {
  }

  lemma {:induction false} DuplicatedEnds()
    ensures Step(Duplicated(3), Move(0, Advance(false)), Duplicated(4))
    ensures Step(Duplicated(4), Move(0, Advance(false)), Duplicated(5))
  {
    assert [] + [7] == [7];
    assert Duplicated(3).sh.queues[0 := Queue(1, [7], [7], [])] == Duplicated(4).sh.queues;
    assert Duplicated(3).threads[0 := Duplicated(4).threads[0]] == Duplicated(4).threads;
    assert Duplicated(4).threads[0 := Duplicated(5).threads[0]] == Duplicated(5).threads;
  }

  /** Where a claim is doubled it fails: two threads, one queue, one direct GlobalPush, and both
      threads execute the queue at once. */
  lemma {:induction false} TwoExecutors() returns (states: seq<State>, moves: seq<Move>)
    ensures Path(states, moves) && Init(states[0])
    ensures var s := states[|states| - 1];
            |s.threads| == 2 && Executing(0, s.threads[0]) && Executing(0, s.threads[1])
  {
    DuplicatedBegins();
    DuplicatedEnds();
    moves := [Move(0, OutsidePush(0)), Move(1, PopGlobal), Move(0, BeginPush(0, 7)),
              Move(0, Advance(false)), Move(0, Advance(false))];
    states := seq(6, k requires 0 <= k < 6 => Duplicated(k));
  }
}
