/** What Push, Execute and ExcuteGlobalJobs do when nobody interferes. */
module JobUse {
  import opened JobScheduler
  import opened Runs

  function Put(s: State, t: nat, sh: Shared, th: Thread): State
    requires t < |s.threads|
  {
    State(sh, s.threads[t := th])
  }

  function With(sh: Shared, q: QueueId, qu: Queue): Shared
    requires q < |sh.queues|
  {
    sh.(queues := sh.queues[q := qu])
  }

  lemma {:induction false} Go(states: seq<State>, moves: seq<Move>, s: State, t: nat, sh: Shared, th: Thread, a: Action)
    returns (states': seq<State>, moves': seq<Move>)
    requires Path(states, moves) && t < |s.threads| && states[|states| - 1] == Put(s, t, sh, th)
    requires Formed(Put(s, t, sh, th)) && SharedOk(sh) && ThreadOk(sh, th) && Enabled(sh, th, a)
    ensures Path(states', moves') && states'[0] == states[0] && Formed(states'[|states'| - 1])
    ensures var (sh', th') := Act(sh, th, a); states'[|states'| - 1] == Put(s, t, sh', th')
  {
    var last := Put(s, t, sh, th);
    var (sh', th') := Act(sh, th, a);
    var next := Put(s, t, sh', th');
    assert last.threads[t] == th && last.threads[t := th'] == next.threads;
    assert Step(last, Move(t, a), next);
    FormedKept(last, Move(t, a), next);
    states', moves' := Extend(Step, states, moves, Move(t, a), next);
  }

  /** The for loop of Execute invokes the rest of the batch, in order. */
  lemma {:induction false} RunsBatch(states: seq<State>, moves: seq<Move>, s: State, t: nat, sh: Shared, q: QueueId,
                                     batch: seq<JobId>, n: nat)
    returns (states': seq<State>, moves': seq<Move>)
    requires Path(states, moves) && t < |s.threads| && q < |sh.queues| && n <= |batch|
    requires states[|states| - 1] == Put(s, t, sh, Thread(Batch(q, batch, n), NotPushing))
    requires Formed(states[|states| - 1])
    ensures Path(states', moves') && states'[0] == states[0] && Formed(states'[|states'| - 1])
    ensures var qu := sh.queues[q];
            states'[|states'| - 1] == Put(s, t, With(sh, q, qu.(ran := qu.ran + batch[n..])),
                                          Thread(Batch(q, batch, |batch|), NotPushing))
    decreases |batch| - n
  {
    states', moves' := states, moves;
    var qu := sh.queues[q];
    if n == |batch| {
      assert qu.ran + batch[n..] == qu.ran;
      assert With(sh, q, qu) == sh;
    } else {
      assert states[|states| - 1].threads[t] == Thread(Batch(q, batch, n), NotPushing);
      states', moves' := Go(states, moves, s, t, sh, Thread(Batch(q, batch, n), NotPushing), Advance(false));
      var sh1 := With(sh, q, qu.(ran := qu.ran + [batch[n]]));
      states', moves' := RunsBatch(states', moves', s, t, sh1, q, batch, n + 1);
      assert qu.ran + [batch[n]] + batch[n + 1..] == qu.ran + batch[n..];
      var qu' := qu.(ran := qu.ran + batch[n..]);
      assert sh1.queues[q := qu'] == sh.queues[q := qu'];
    }
  }

  /** One round of Execute alone: every job that was queued runs, in order, and is counted off; and the
      thread is done exactly if that was all that was counted. */
  lemma {:induction false} ExecuteAlone(states: seq<State>, moves: seq<Move>, s: State, t: nat, sh: Shared, q: QueueId)
    returns (states': seq<State>, moves': seq<Move>)
    requires Path(states, moves) && t < |s.threads| && q < |sh.queues|
    requires states[|states| - 1] == Put(s, t, sh, Thread(Loop(q), NotPushing)) && Formed(states[|states| - 1])
    ensures Path(states', moves') && states'[0] == states[0] && Formed(states'[|states'| - 1])
    ensures var qu := sh.queues[q];
            states'[|states'| - 1]
            == Put(s, t, With(sh, q, qu.(jobs := [], ran := qu.ran + qu.jobs, count := qu.count - |qu.jobs|)),
                   Thread(if qu.count == |qu.jobs| then NotExecuting else Timed(q), NotPushing))
  {
    var qu := sh.queues[q];
    assert states[|states| - 1].threads[t] == Thread(Loop(q), NotPushing);
    states', moves' := Go(states, moves, s, t, sh, Thread(Loop(q), NotPushing), Advance(false));
    var sh1 := With(sh, q, qu.(jobs := []));
    states', moves' := RunsBatch(states', moves', s, t, sh1, q, qu.jobs, 0);
    assert qu.jobs[0..] == qu.jobs;
    var qu2 := qu.(jobs := [], ran := qu.ran + qu.jobs);
    var sh2 := With(sh, q, qu2);
    assert sh1.queues[q := qu2] == sh2.queues;
    var th := Thread(Batch(q, qu.jobs, |qu.jobs|), NotPushing);
    assert states'[|states'| - 1].threads[t] == th;
    states', moves' := Go(states', moves', s, t, sh2, th, Advance(false));
    var qu3 := qu2.(count := qu.count - |qu.jobs|);
    assert sh2.queues[q := qu3] == sh.queues[q := qu3];
  }

  /** With more counted than was done, a slice that is up puts the queue at the end of the global queue
      and lets go of it, and one that is not goes round again. */
  lemma {:induction false} SliceEnds(states: seq<State>, moves: seq<Move>, s: State, t: nat, sh: Shared, q: QueueId,
                                     timeUp: bool)
    returns (states': seq<State>, moves': seq<Move>)
    requires Path(states, moves) && t < |s.threads| && q < |sh.queues|
    requires states[|states| - 1] == Put(s, t, sh, Thread(Timed(q), NotPushing)) && Formed(states[|states| - 1])
    ensures Path(states', moves') && states'[0] == states[0]
    ensures states'[|states'| - 1] ==
      if timeUp then Put(s, t, sh.(global := sh.global + [q]), Thread(NotExecuting, NotPushing))
      else Put(s, t, sh, Thread(Loop(q), NotPushing))
  {
    assert states[|states| - 1].threads[t] == Thread(Timed(q), NotPushing);
    states', moves' := Go(states, moves, s, t, sh, Thread(Timed(q), NotPushing), Advance(timeUp));
    if timeUp {
      assert states'[|states'| - 1].threads[t] == Thread(Requeue(q), NotPushing);
      states', moves' := Go(states', moves', s, t, sh, Thread(Requeue(q), NotPushing), Advance(timeUp));
    }
  }

  /** Outside Execute, or inside a job, and not in the middle of a Push. */
  predicate MayPush(th: Thread) {
    th.push.NotPushing? && (th.exec.NotExecuting? || (th.exec.Batch? && th.exec.invoked > 0))
  }

  /** The shared state once a job is counted and stored. */
  function Stored(sh: Shared, q: QueueId, job: JobId): Shared
    requires q < |sh.queues|
  {
    var qu := sh.queues[q];
    With(sh, q, qu.(count := qu.count + 1, jobs := qu.jobs + [job], enqueued := qu.enqueued + [job]))
  }

  /** Push counts the job and stores it at the end; on an idle queue the thread is then bound to
      schedule the queue. */
  lemma {:induction false} PushStores(states: seq<State>, moves: seq<Move>, s: State, t: nat, q: QueueId, job: JobId)
    returns (states': seq<State>, moves': seq<Move>)
    requires Path(states, moves) && states[|states| - 1] == s && Formed(s) && t < |s.threads|
    requires q < |s.sh.queues| && MayPush(s.threads[t])
    ensures Path(states', moves') && states'[0] == states[0] && Formed(states'[|states'| - 1])
    ensures var push := if s.sh.queues[q].count == 0 then Elected(q) else NotPushing;
            states'[|states'| - 1] == Put(s, t, Stored(s.sh, q, job), s.threads[t].(push := push))
  {
    var th, qu := s.threads[t], s.sh.queues[q];
    assert Put(s, t, s.sh, th) == s;
    states', moves' := Go(states, moves, s, t, s.sh, th, BeginPush(q, job));
    var sh1 := With(s.sh, q, qu.(count := qu.count + 1));
    var th1 := th.(push := Counted(q, job, qu.count == 0));
    assert states'[|states'| - 1].threads[t] == th1;
    states', moves' := Go(states', moves', s, t, sh1, th1, Advance(false));
    var qu' := qu.(count := qu.count + 1, jobs := qu.jobs + [job], enqueued := qu.enqueued + [job]);
    assert sh1.queues[q := qu'] == s.sh.queues[q := qu'];
  }

  /** A Push alone by a thread that executes nothing, on an idle queue, runs the job before it returns. */
  lemma {:induction false} PushRuns(states: seq<State>, moves: seq<Move>, s: State, t: nat, q: QueueId, job: JobId)
    returns (states': seq<State>, moves': seq<Move>)
    requires Path(states, moves) && states[|states| - 1] == s && Formed(s) && t < |s.threads| && q < |s.sh.queues|
    requires s.threads[t] == Thread(NotExecuting, NotPushing) && s.sh.queues[q].count == 0 && s.sh.queues[q].jobs == []
    ensures Path(states', moves') && states'[0] == states[0]
    ensures var qu := s.sh.queues[q];
            states'[|states'| - 1]
            == State(With(s.sh, q, Queue(0, [], qu.enqueued + [job], qu.ran + [job])), s.threads)
  {
    var qu := s.sh.queues[q];
    states', moves' := PushStores(states, moves, s, t, q, job);
    var sh1 := Stored(s.sh, q, job);
    assert states'[|states'| - 1].threads[t] == Thread(NotExecuting, Elected(q));
    states', moves' := Go(states', moves', s, t, sh1, Thread(NotExecuting, Elected(q)), Advance(false));
    states', moves' := ExecuteAlone(states', moves', s, t, sh1, q);
    var qu' := Queue(0, [], qu.enqueued + [job], qu.ran + [job]);
    assert [] + [job] == [job];
    assert sh1.queues[q := qu'] == s.sh.queues[q := qu'];
    assert s.threads[t := Thread(NotExecuting, NotPushing)] == s.threads;
  }

  /** From inside a job, on an idle queue, it only puts the queue at the end of the global queue; on a
      queue that somebody has in hand it leaves the job to them. */
  lemma {:induction false} PushInside(states: seq<State>, moves: seq<Move>, s: State, t: nat, q: QueueId, job: JobId)
    returns (states': seq<State>, moves': seq<Move>)
    requires Path(states, moves) && states[|states| - 1] == s && Formed(s) && t < |s.threads|
    requires q < |s.sh.queues| && MayPush(s.threads[t])
    requires s.threads[t].exec.Batch? || s.sh.queues[q].count != 0
    ensures Path(states', moves') && states'[0] == states[0]
    ensures var sh' := Stored(s.sh, q, job);
            states'[|states'| - 1]
            == State(if s.sh.queues[q].count == 0 then sh'.(global := sh'.global + [q]) else sh', s.threads)
  {
    states', moves' := PushStores(states, moves, s, t, q, job);
    var sh1, th := Stored(s.sh, q, job), s.threads[t];
    assert s.threads[t := th] == s.threads && th.(push := NotPushing) == th;
    if s.sh.queues[q].count == 0 {
      assert states'[|states'| - 1].threads[t] == th.(push := Elected(q));
      states', moves' := Go(states', moves', s, t, sh1, th.(push := Elected(q)), Advance(false));
    }
  }

  /** ExcuteGlobalJobs takes up the first queue of the global queue. */
  lemma {:induction false} GlobalTakes(states: seq<State>, moves: seq<Move>, s: State, t: nat)
    returns (states': seq<State>, moves': seq<Move>)
    requires Path(states, moves) && states[|states| - 1] == s && Formed(s) && t < |s.threads|
    requires s.threads[t] == Thread(NotExecuting, NotPushing)
    ensures Path(states', moves') && states'[0] == states[0]
    ensures states'[|states'| - 1] ==
      if s.sh.global == [] then s
      else Put(s, t, s.sh.(global := s.sh.global[1..]), Thread(Loop(s.sh.global[0]), NotPushing))
  {
    assert Put(s, t, s.sh, s.threads[t]) == s;
    states', moves' := Go(states, moves, s, t, s.sh, s.threads[t], PopGlobal);
  }
}
