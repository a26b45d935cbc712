/** ServerCore/DBConnectionPool and who draws on it: a job holds one connection from RESPONSE_START
    to RESPONSE_END, Room::RemoveUser takes a second one inside it, and OnDisconnected takes one for
    RemoveUser and then one of its own.  Pop answers nullptr when nothing is left, and its callers
    use the answer unchecked. */
module ConnectionPool {
  import opened Runs
  import opened Tally

  type Connection = int

  datatype Option<T> = None | Some(value: T)

  /** How many connections open before the first failure. */
  function OpenedBefore(opens: seq<bool>): nat {
    if opens == [] || !opens[0] then 0 else 1 + OpenedBefore(opens[1..])
  }

  class DBConnectionPool {
    var connections: seq<Connection>

    constructor ()
      ensures connections == []
    {
      connections := [];
    }

    /** Sets up the ODBC environment and opens one connection for each entry, stopping at the first
        thing that fails; what was opened stays. */
    method Connect(hasEnvironment: bool, hasVersion: bool, opens: seq<bool>) returns (ok: bool)
      modifies this
      ensures ok <==> hasEnvironment && hasVersion && forall i :: 0 <= i < |opens| ==> opens[i]
      ensures connections == old(connections)
                + (if hasEnvironment && hasVersion then seq(OpenedBefore(opens), i => i) else [])
    {
      if !hasEnvironment { return false; }
      if !hasVersion { return false; }
      var i := 0;
      while i < |opens|
        invariant 0 <= i <= |opens|
        invariant forall j :: 0 <= j < i ==> opens[j]
        invariant OpenedBefore(opens) == i + OpenedBefore(opens[i..])
        invariant connections == old(connections) + seq(i, j => j)
      {
        if !opens[i] { return false; }
        assert opens[i..][1..] == opens[i + 1..];
        assert seq(i + 1, j => j) == seq(i, j => j) + [i];
        connections := connections + [i];
        i := i + 1;
      }
      return true;
    }

    method Pop() returns (c: Option<Connection>)
      modifies this
      ensures c.None? <==> old(connections) == []
      ensures c.None? ==> connections == []
      ensures c.Some? ==> old(connections) == connections + [c.value]
    {
      if connections == [] { return None; }
      c := Some(connections[|connections| - 1]);
      connections := connections[..|connections| - 1];
    }

    method Push(c: Connection)
      modifies this
      ensures connections == old(connections) + [c]
    {
      connections := connections + [c];
    }
  }

  // ---------------------------------------------------------------- all the workers

  /** Where a worker stands.  It never starts a job inside a job: handlers run only from the dispatcher,
      and JobScheduler.OneQueueAtATime shows that a Push from inside a job only queues. */
  datatype Pc =
    | Idle
    | JobPop | Job(c: Connection) | NestedPop(c: Connection) | Nested(c: Connection, d: Connection)
    | RemovePop | Remove(c: Connection) | FlagPop | Flag(c: Connection)

  datatype State = State(free: seq<Connection>, threads: seq<Pc>, failed: bool)

  datatype Choice =
    | BeginJob
    | BeginDisconnect(inRoom: bool)
    | RemoveUser        // from inside a job
    | PopOne            // at a point that pops
    | PushOne           // gives back the innermost connection held

  datatype Move = Move(t: nat, c: Choice)

  predicate Pops(pc: Pc) { pc.JobPop? || pc.NestedPop? || pc.RemovePop? || pc.FlagPop? }

  predicate Enabled(s: State, m: Move) {
    && !s.failed && m.t < |s.threads|
    && var pc := s.threads[m.t];
       match m.c
       case BeginJob => pc.Idle?
       case BeginDisconnect(_) => pc.Idle?
       case RemoveUser => pc.Job?
       case PopOne => Pops(pc)
       case PushOne => pc.Job? || pc.Nested? || pc.Remove? || pc.Flag?
  }

  function AfterPop(pc: Pc, c: Connection): Pc {
    match pc
    case JobPop => Job(c)
    case NestedPop(outer) => Nested(outer, c)
    case RemovePop => Remove(c)
    case _ => Flag(c)
  }

  function Next(s: State, m: Move): State
    requires Enabled(s, m)
  {
    var pc, n := s.threads[m.t], |s.free|;
    match m.c
    case BeginJob => s.(threads := s.threads[m.t := JobPop])
    case BeginDisconnect(inRoom) => s.(threads := s.threads[m.t := if inRoom then RemovePop else FlagPop])
    case RemoveUser => s.(threads := s.threads[m.t := NestedPop(pc.c)])
    case PopOne =>
      if n == 0 then s.(failed := true)
      else State(s.free[..n - 1], s.threads[m.t := AfterPop(pc, s.free[n - 1])], false)
    case PushOne =>
      match pc
      case Nested(c, d) => State(s.free + [d], s.threads[m.t := Job(c)], false)
      case Remove(c) => State(s.free + [c], s.threads[m.t := FlagPop], false)
      case _ => State(s.free + [pc.c], s.threads[m.t := Idle], false)
  }

  ghost predicate Step(s: State, m: Move, s': State) { Enabled(s, m) && s' == Next(s, m) }

  ghost predicate Path(states: seq<State>, moves: seq<Move>) { Linked(Step, states, moves) }

  /** size connections, numbered from 0, and so many idle workers. */
  predicate Init(s: State, size: nat, workers: nat) {
    && s.free == seq(size, i => i) && |s.threads| == workers && !s.failed
    && forall t :: 0 <= t < workers ==> s.threads[t].Idle?
  }

  predicate HoldsOne(pc: Pc) { pc.Job? || pc.NestedPop? || pc.Nested? || pc.Remove? || pc.Flag? }

  function HeldCount(pc: Pc): nat { (if HoldsOne(pc) then 1 else 0) + (if pc.Nested? then 1 else 0) }

  function HoldsOf(x: Connection): Pc -> nat {
    (pc: Pc) => (if HoldsOne(pc) && pc.c == x then 1 else 0) + (if pc.Nested? && pc.d == x then 1 else 0)
  }

  /** How often a connection is free or held. */
  function Places(s: State, x: Connection): nat { Sum(s.free, Is(x)) + Sum(s.threads, HoldsOf(x)) }

  /** Every connection is in exactly one place, once. */
  ghost predicate Conserved(s: State, size: nat) {
    && |s.free| + Sum(s.threads, HeldCount) == size
    && forall x: Connection :: Places(s, x) == if 0 <= x < size then 1 else 0
  }

  lemma {:induction false} Numbered(size: nat, x: Connection)
    ensures Sum(seq(size, i => i), Is(x)) == if 0 <= x < size then 1 else 0
  {
    if size > 0 {
      assert seq(size, i => i) == seq(size - 1, i => i) + [size - 1];
      SumAppend(seq(size - 1, i => i), size - 1, Is(x));
      Numbered(size - 1, x);
    }
  }

  lemma {:induction false} InitConserved(s: State, size: nat, workers: nat)
    requires Init(s, size, workers)
    ensures Conserved(s, size)
  {
    SumZero(s.threads, HeldCount);
    forall x: Connection
      ensures Places(s, x) == if 0 <= x < size then 1 else 0
    {
      Numbered(size, x);
      SumZero(s.threads, HoldsOf(x));
    }
  }

  lemma {:induction false} MoverBalance(s: State, m: Move, s': State, x: Connection)
    requires Step(s, m, s')
    ensures var pc, pc' := s.threads[m.t], s'.threads[m.t];
            && |s'.free| + HeldCount(pc') == |s.free| + HeldCount(pc)
            && Sum(s'.free, Is(x)) + HoldsOf(x)(pc') == Sum(s.free, Is(x)) + HoldsOf(x)(pc)
  {
    var n, pc := |s.free|, s.threads[m.t];
    if m.c.PopOne? && n > 0 {
      assert s.free == s.free[..n - 1] + [s.free[n - 1]];
      SumAppend(s.free[..n - 1], s.free[n - 1], Is(x));
    } else if m.c.PushOne? {
      SumAppend(s.free, if pc.Nested? then pc.d else pc.c, Is(x));
    }
  }

  lemma {:induction false} PlacesKept(s: State, m: Move, s': State, x: Connection)
    requires Step(s, m, s')
    ensures Places(s', x) == Places(s, x)
    ensures |s'.free| + Sum(s'.threads, HeldCount) == |s.free| + Sum(s.threads, HeldCount)
  {
    MoverBalance(s, m, s', x);
    SumUpdate(s.threads, m.t, s'.threads[m.t], HoldsOf(x));
    SumUpdate(s.threads, m.t, s'.threads[m.t], HeldCount);
  }

  lemma {:induction false} ConservedKept(s: State, m: Move, s': State, size: nat)
    requires Conserved(s, size) && Step(s, m, s')
    ensures Conserved(s', size)
  {
    PlacesKept(s, m, s', 0);
    forall x: Connection
      ensures Places(s', x) == if 0 <= x < size then 1 else 0
    {
      PlacesKept(s, m, s', x);
    }
  }

  lemma {:induction false} RunConserved(states: seq<State>, moves: seq<Move>, i: nat, size: nat, workers: nat)
    requires Path(states, moves) && Init(states[0], size, workers) && i < |states|
    ensures Conserved(states[i], size) && |states[i].threads| == workers
  {
    if i == 0 {
      InitConserved(states[0], size, workers);
    } else {
      RunConserved(states, moves, i - 1, size, workers);
      assert Step(states[i - 1], moves[i - 1], states[i]);
      ConservedKept(states[i - 1], moves[i - 1], states[i], size);
    }
  }

  /** A worker about to pop holds at most one connection and every other at most two. */
  lemma {:induction false} EnoughLeft(s: State, t: nat, size: nat)
    requires Conserved(s, size) && t < |s.threads| && Pops(s.threads[t]) && size >= 2 * |s.threads|
    ensures |s.free| > 0
  {
    var full := s.threads[t := Nested(0, 0)];
    SumUpdate(s.threads, t, Nested(0, 0), HeldCount);
    SumBound(full, HeldCount, 2);
  }

  /** With two connections a worker, in every run: free and held connections are exactly the
      original ones, none is held twice, no worker holds more than two, and Pop never answers nullptr. */
  lemma {:induction false} PoolSuffices(states: seq<State>, moves: seq<Move>, i: nat, size: nat, workers: nat)
    requires Path(states, moves) && Init(states[0], size, workers) && i < |states| && size >= 2 * workers
    ensures !states[i].failed && Conserved(states[i], size)
    ensures forall t :: 0 <= t < |states[i].threads| ==> HeldCount(states[i].threads[t]) <= 2
  {
    RunConserved(states, moves, i, size, workers);
    if i > 0 {
      PoolSuffices(states, moves, i - 1, size, workers);
      var s, m := states[i - 1], moves[i - 1];
      assert Step(s, m, states[i]);
      if m.c.PopOne? { EnoughLeft(s, m.t, size); }
    }
  }

  /** The server's own figures: thirty connections and eleven workers. */
  lemma {:induction false} ServerNeverRunsDry(states: seq<State>, moves: seq<Move>, i: nat)
    requires Path(states, moves) && Init(states[0], 30, 11) && i < |states|
    ensures !states[i].failed
  {
    PoolSuffices(states, moves, i, 30, 11);
  }

  /** Workers k, k + 1, ... each take two connections until there is none. */
  lemma {:induction false} Exhaust(states: seq<State>, moves: seq<Move>, k: nat)
    returns (states': seq<State>, moves': seq<Move>)
    requires Path(states, moves) && !states[|states| - 1].failed && k <= |states[|states| - 1].threads|
    requires var s := states[|states| - 1];
             && (forall t :: k <= t < |s.threads| ==> s.threads[t].Idle?)
             && |s.free| < 2 * (|s.threads| - k)
    ensures Path(states', moves') && states'[0] == states[0] && states'[|states'| - 1].failed
    decreases |states[|states| - 1].threads| - k
  {
    var begin, pop, remove := Move(k, BeginJob), Move(k, PopOne), Move(k, RemoveUser);
    var s1 := Next(states[|states| - 1], begin);
    states', moves' := Extend(Step, states, moves, begin, s1);
    var s2 := Next(s1, pop);
    states', moves' := Extend(Step, states', moves', pop, s2);
    if !s2.failed {
      var s3 := Next(s2, remove);
      states', moves' := Extend(Step, states', moves', remove, s3);
      var s4 := Next(s3, pop);
      states', moves' := Extend(Step, states', moves', pop, s4);
      if !s4.failed {
        states', moves' := Exhaust(states', moves', k + 1);
      }
    }
  }

  /** Two connections a worker is exact: with fewer, some run makes Pop answer nullptr. */
  lemma {:induction false} FewerRunsDry(size: nat, workers: nat) returns (states: seq<State>, moves: seq<Move>)
    requires size < 2 * workers
    ensures Path(states, moves) && Init(states[0], size, workers) && states[|states| - 1].failed
  {
    var s := State(seq(size, i => i), seq(workers, _ => Idle), false);
    states, moves := Exhaust([s], [], 0);
  }

  // ---------------------------------------------------------------- alone

  /** One step of thread t that leaves the free connections and its own place as given. */
  lemma {:induction false} Go(states: seq<State>, moves: seq<Move>, s: State, t: nat, free: seq<Connection>, pc: Pc,
                              c: Choice, free': seq<Connection>, pc': Pc)
    returns (states': seq<State>, moves': seq<Move>)
    requires Path(states, moves) && t < |s.threads| && states[|states| - 1] == State(free, s.threads[t := pc], false)
    requires Enabled(states[|states| - 1], Move(t, c))
    requires var next := Next(states[|states| - 1], Move(t, c));
             next.free == free' && next.threads[t] == pc' && !next.failed
    ensures Path(states', moves') && moves' == moves + [Move(t, c)] && states'[0] == states[0]
    ensures states'[|states'| - 1] == State(free', s.threads[t := pc'], false)
  {
    var next := State(free', s.threads[t := pc'], false);
    assert s.threads[t := pc][t := pc'] == s.threads[t := pc'];
    states', moves' := states + [next], moves + [Move(t, c)];
    assert Step(states[|states| - 1], Move(t, c), next);
    forall i | 0 <= i < |moves'|
      ensures Step(states'[i], moves'[i], states'[i + 1])
    {
      if i < |moves| { assert Step(states[i], moves[i], states[i + 1]); }
    }
  }

  lemma {:induction false} RemovesUser(states: seq<State>, moves: seq<Move>, s: State, t: nat, free: seq<Connection>,
                                       c: Connection)
    returns (states': seq<State>, moves': seq<Move>)
    requires Path(states, moves) && t < |s.threads| && |free| >= 1
    requires states[|states| - 1] == State(free, s.threads[t := Job(c)], false)
    ensures Path(states', moves') && states'[0] == states[0]
    ensures states'[|states'| - 1] == State(free, s.threads[t := Job(c)], false)
    ensures moves' == moves + [Move(t, RemoveUser), Move(t, PopOne), Move(t, PushOne)]
  {
    var f, d := free[..|free| - 1], free[|free| - 1];
    assert f + [d] == free;
    states', moves' := Go(states, moves, s, t, free, Job(c), RemoveUser, free, NestedPop(c));
    states', moves' := Go(states', moves', s, t, free, NestedPop(c), PopOne, f, Nested(c, d));
    states', moves' := Go(states', moves', s, t, f, Nested(c, d), PushOne, free, Job(c));
  }

  /** A job alone holds one connection, and a second one while it removes a user from a room; in the
      end both are back where they were. */
  lemma {:induction false} JobAlone(states: seq<State>, moves: seq<Move>, s: State, t: nat, removes: bool)
    returns (states': seq<State>, moves': seq<Move>)
    requires Path(states, moves) && states[|states| - 1] == s && t < |s.threads| && s.threads[t].Idle? && !s.failed
    requires |s.free| >= if removes then 2 else 1
    ensures Path(states', moves') && states'[|states'| - 1] == s
    ensures moves' == moves
      + [Move(t, BeginJob), Move(t, PopOne)]
      + (if removes then [Move(t, RemoveUser), Move(t, PopOne), Move(t, PushOne)] else [])
      + [Move(t, PushOne)]
  {
    var n := |s.free|;
    var f1, c := s.free[..n - 1], s.free[n - 1];
    assert s.threads[t := Idle] == s.threads && f1 + [c] == s.free;
    states', moves' := Go(states, moves, s, t, s.free, Idle, BeginJob, s.free, JobPop);
    states', moves' := Go(states', moves', s, t, s.free, JobPop, PopOne, f1, Job(c));
    if removes { states', moves' := RemovesUser(states', moves', s, t, f1, c); }
    states', moves' := Go(states', moves', s, t, f1, Job(c), PushOne, s.free, Idle);
  }

  /** A disconnect alone takes one connection to leave its room, if it is in one, gives it back, and then
      takes one to go offline. */
  lemma {:induction false} DisconnectAlone(states: seq<State>, moves: seq<Move>, s: State, t: nat, inRoom: bool)
    returns (states': seq<State>, moves': seq<Move>)
    requires Path(states, moves) && states[|states| - 1] == s && t < |s.threads| && s.threads[t].Idle? && !s.failed
    requires |s.free| >= 1
    ensures Path(states', moves') && states'[|states'| - 1] == s
    ensures moves' == moves
      + [Move(t, BeginDisconnect(inRoom))]
      + (if inRoom then [Move(t, PopOne), Move(t, PushOne)] else [])
      + [Move(t, PopOne), Move(t, PushOne)]
  {
    var n := |s.free|;
    var f, c := s.free[..n - 1], s.free[n - 1];
    assert s.threads[t := Idle] == s.threads && f + [c] == s.free;
    states', moves' := Go(states, moves, s, t, s.free, Idle, BeginDisconnect(inRoom), s.free,
                          if inRoom then RemovePop else FlagPop);
    if inRoom {
      states', moves' := Go(states', moves', s, t, s.free, RemovePop, PopOne, f, Remove(c));
      states', moves' := Go(states', moves', s, t, f, Remove(c), PushOne, s.free, FlagPop);
    }
    states', moves' := Go(states', moves', s, t, s.free, FlagPop, PopOne, f, Flag(c));
    states', moves' := Go(states', moves', s, t, f, Flag(c), PushOne, s.free, Idle);
  }
}
