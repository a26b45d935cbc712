/** How often Room::BroadCast gives its buffer to each session. */
module Broadcasts {
  import opened Messaging
  import opened Runs
  import opened Tally

  /** How often a buffer is in a record, and how often a session is in a list of members. */
  function Copies(record: seq<Buffer>, b: Buffer): nat { Sum(record, Is(b)) }

  function Times(users: seq<nat>, q: nat): nat { Sum(users, Is(q)) }

  predicate Distinct(users: seq<nat>) { forall i, j :: 0 <= i < j < |users| ==> users[i] != users[j] }

  lemma {:induction false} DistinctOnce(users: seq<nat>, q: nat)
    requires Distinct(users)
    ensures Times(users, q) <= 1
  {
    if users != [] {
      DistinctOnce(users[1..], q);
      if users[0] == q { SumZero(users[1..], Is(q)); }
    }
  }

  /** A broadcast goes to every member that is not excluded as often as the member is listed, and to
      nobody else. */
  lemma {:induction false} TargetsExactly(users: seq<nat>, except: seq<nat>, q: nat)
    ensures Times(Targets(users, except), q) == if q in except then 0 else Times(users, q)
  {
    if users != [] {
      TargetsExactly(users[1..], except, q);
      SumConcat(if users[0] in except then [] else [users[0]], Targets(users[1..], except), Is(q));
      assert Sum([users[0]], Is(q)) == Is(q)(users[0]);
    }
  }

  // ---------------------------------------------------------------- a broadcast in progress

  predicate Sending(pc: Pc) { pc.SendCheck? || pc.SendLock? }

  /** The targets that have been served, or found disconnected. */
  function Served(th: Thread): seq<nat>
    requires th.cast.Casting? && th.cast.started <= |th.cast.targets|
  {
    th.cast.targets[..if Sending(th.pc) && th.cast.started > 0 then th.cast.started - 1 else th.cast.started]
  }

  /** Session q has as many copies as it has been served, or fewer if it has been disconnected. */
  predicate CopiesOk(se: Session, q: nat, th: Thread) {
    th.cast.Casting? && th.cast.started <= |th.cast.targets| ==>
      var n := Copies(se.enqueued, Cast(th.cast.room, th.cast.number));
      n <= Times(Served(th), q) && (se.connected ==> n == Times(Served(th), q))
  }

  ghost predicate Counted(s: State) {
    forall t, q :: 0 <= t < |s.threads| && 0 <= q < |s.sessions| ==> CopiesOk(s.sessions[q], q, s.threads[t])
  }

  /** A record whose numbers of a room are all below next has no copy of number next. */
  lemma {:induction false} NoneYet(rooms: seq<Room>, record: seq<Buffer>, r: nat)
    requires NumbersOk(rooms, record) && r < |rooms|
    ensures Copies(record, Cast(r, rooms[r].next)) == 0
  {
    SumZero(record, Is(Cast(r, rooms[r].next)));
  }

  /** Two threads never carry buffers of one broadcast. */
  lemma {:induction false} OthersBuffer(s: State, t: nat, u: nat)
    requires Inv(s) && t < |s.threads| && u < |s.threads| && t != u
    requires s.threads[t].cast.Casting? && Sending(s.threads[u].pc)
    ensures s.threads[u].pc.buffer != Cast(s.threads[t].cast.room, s.threads[t].cast.number)
  {
    assert CastOk(s.rooms, t, s.threads[t]) && CastOk(s.rooms, u, s.threads[u]);
  }

  lemma {:induction false} OtherCounted(s: State, m: Move, s': State, t: nat, q: nat)
    requires Inv(s) && Step(s, m, s') && t < |s.threads| && q < |s.sessions| && t != m.t
    requires CopiesOk(s.sessions[q], q, s.threads[t])
    ensures t < |s'.threads| && q < |s'.sessions| && CopiesOk(s'.sessions[q], q, s'.threads[t])
  {
    IndexedKept(s, m, s');
    Grows(s, m, s', q);
    var c, pc := s.threads[t].cast, s.threads[m.t].pc;
    if c.Casting? && m.c.Advance? && pc.SendLock? && pc.s == q {
      OthersBuffer(s, t, m.t);
      SumAppend(s.sessions[q].enqueued, pc.buffer, Is(Cast(c.room, c.number)));
    }
  }

  /** One target more has been served, or found disconnected: q's copies and its turns move together. */
  lemma {:induction false} TurnCounted(se: Session, se': Session, q: nat, th: Thread, th': Thread)
    requires CopiesOk(se, q, th) && th.cast.Casting? && Sending(th.pc) && th.pc.buffer.Cast?
    requires 0 < th.cast.started <= |th.cast.targets| && th.cast.targets[th.cast.started - 1] == th.pc.s
    requires th.pc.buffer == Cast(th.cast.room, th.cast.number) && th'.cast == th.cast && !Sending(th'.pc)
    requires se'.connected ==> se.connected
    requires se'.enqueued == se.enqueued + (if th.pc.SendLock? && th.pc.s == q then [th.pc.buffer] else [])
    requires th.pc.SendCheck? && th.pc.s == q ==> !se.connected
    ensures CopiesOk(se', q, th')
  {
    var k := th.cast.started - 1;
    SumPrefix(th.cast.targets, k, Is(q));
    assert Served(th) == th.cast.targets[..k] && Served(th') == th.cast.targets[..k + 1];
    SumAppend(se.enqueued, th.pc.buffer, Is(th.pc.buffer));
    assert se.enqueued + [] == se.enqueued;
  }

  lemma {:induction false} BeginCounted(s: State, m: Move, s': State, q: nat)
    requires Inv(s) && Step(s, m, s') && q < |s.sessions| && m.c.BeginCast?
    ensures m.t < |s'.threads| && q < |s'.sessions| && CopiesOk(s'.sessions[q], q, s'.threads[m.t])
  {
    assert NumbersOk(s.rooms, s.sessions[q].enqueued);
    NoneYet(s.rooms, s.sessions[q].enqueued, m.c.r);
  }

  /** No turn ends: neither q's copies nor its turns change. */
  lemma {:induction false} NoTurnCounted(se: Session, se': Session, q: nat, th: Thread, th': Thread)
    requires CopiesOk(se, q, th) && (se'.connected ==> se.connected) && se'.enqueued == se.enqueued
    requires th'.cast.Casting? && th'.cast.started <= |th'.cast.targets| ==>
               && th.cast.Casting? && th.cast.started <= |th.cast.targets|
               && th'.cast.room == th.cast.room && th'.cast.number == th.cast.number
               && Served(th') == Served(th)
    ensures CopiesOk(se', q, th')
  {
  }

  lemma {:induction false} MoverTurns(s: State, m: Move, s': State)
    requires Inv(s) && Step(s, m, s') && !m.c.BeginCast?
    ensures |s'.threads| == |s.threads|
    ensures m.c.Advance? && s.threads[m.t].pc.SendLock? ==> !Sending(s'.threads[m.t].pc)
    ensures var th, th' := s.threads[m.t], s'.threads[m.t];
            th'.cast.Casting? && th'.cast.started <= |th'.cast.targets| ==>
              && th.cast.Casting? && th.cast.started <= |th.cast.targets|
              && th'.cast.room == th.cast.room && th'.cast.number == th.cast.number
              && (Sending(th.pc) && !Sending(th'.pc) ==> m.c.Advance? && th'.cast == th.cast)
              && (!(Sending(th.pc) && !Sending(th'.pc)) ==> Served(th') == Served(th))
  {
    IndexedKept(s, m, s');
    MoverThread(s, m, s');
    assert CastOk(s.rooms, m.t, s.threads[m.t]);
  }

  lemma {:induction false} MoverCounted(s: State, m: Move, s': State, q: nat)
    requires Inv(s) && Step(s, m, s') && q < |s.sessions| && CopiesOk(s.sessions[q], q, s.threads[m.t])
    ensures m.t < |s'.threads| && q < |s'.sessions| && CopiesOk(s'.sessions[q], q, s'.threads[m.t])
  {
    if m.c.BeginCast? {
      BeginCounted(s, m, s', q);
    } else {
      Grows(s, m, s', q);
      MoverTurns(s, m, s');
      var th, th' := s.threads[m.t], s'.threads[m.t];
      if th'.cast.Casting? && th'.cast.started <= |th'.cast.targets| {
        if Sending(th.pc) && !Sending(th'.pc) {
          MoverThread(s, m, s');
          assert CastOk(s.rooms, m.t, th);
          TurnCounted(s.sessions[q], s'.sessions[q], q, th, th');
        } else {
          assert s.sessions[q].enqueued + [] == s.sessions[q].enqueued;
          NoTurnCounted(s.sessions[q], s'.sessions[q], q, th, th');
        }
      }
    }
  }

  lemma {:induction false} RunCounted(states: seq<State>, moves: seq<Move>, i: nat)
    requires Path(states, moves) && Init(states[0]) && i < |states|
    ensures Counted(states[i])
  {
    if i > 0 {
      var s, m, s' := states[i - 1], moves[i - 1], states[i];
      RunInv(states, moves, i - 1);
      RunCounted(states, moves, i - 1);
      assert Step(s, m, s');
      IndexedKept(s, m, s');
      forall t, q | 0 <= t < |s'.threads| && 0 <= q < |s'.sessions|
        ensures CopiesOk(s'.sessions[q], q, s'.threads[t])
      {
        assert CopiesOk(s.sessions[q], q, s.threads[t]);
        if t == m.t { MoverCounted(s, m, s', q); } else { OtherCounted(s, m, s', t, q); }
      }
    }
  }

  // ---------------------------------------------------------------- results

  /** When a broadcast ends, every connected session has exactly as many copies of it as the room lists
      the session, or none if it was excluded or is no member; a disconnected one has no more. */
  lemma {:induction false} EveryMemberServed(states: seq<State>, moves: seq<Move>, i: nat, t: nat, q: nat)
    requires Path(states, moves) && Init(states[0]) && i < |moves| && moves[i] == Move(t, EndCast)
    requires t < |states[i].threads| && q < |states[i].sessions|
    ensures var s := states[i];
            var c := s.threads[t].cast;
            && c.Casting? && c.room < |s.rooms|
            && var due := if q in c.except then 0 else Times(s.rooms[c.room].users, q);
               var n := Copies(s.sessions[q].enqueued, Cast(c.room, c.number));
               n <= due && (s.sessions[q].connected ==> n == due)
  {
    RunInv(states, moves, i);
    RunCounted(states, moves, i);
    var s := states[i];
    assert Step(s, moves[i], states[i + 1]);
    var th := s.threads[t];
    assert CastOk(s.rooms, t, th) && CopiesOk(s.sessions[q], q, th);
    assert th.cast.targets[..th.cast.started] == th.cast.targets;
    TargetsExactly(s.rooms[th.cast.room].users, th.cast.except, q);
  }

  ghost predicate AllDistinct(s: State) { forall r :: 0 <= r < |s.rooms| ==> Distinct(s.rooms[r].users) }

  /** One more buffer of a broadcast is a session's first, if the room lists it once. */
  lemma {:induction false} FirstCopy(s: State, t: nat, q: nat)
    requires Inv(s) && Counted(s) && AllDistinct(s) && t < |s.threads| && q < |s.sessions|
    requires Sending(s.threads[t].pc) && s.threads[t].pc.s == q && s.threads[t].pc.buffer.Cast?
    ensures Copies(s.sessions[q].enqueued, s.threads[t].pc.buffer) == 0
  {
    var th := s.threads[t];
    var c := th.cast;
    assert CastOk(s.rooms, t, th) && CopiesOk(s.sessions[q], q, th) && Indexed(s, th);
    var users := s.rooms[c.room].users;
    SumPrefix(c.targets, c.started - 1, Is(q));
    TargetsExactly(users, c.except, q);
    DistinctOnce(users, q);
  }

  lemma {:induction false} OnceKept(s: State, m: Move, s': State, q: nat, b: Buffer)
    requires Inv(s) && Counted(s) && AllDistinct(s) && Step(s, m, s') && q < |s.sessions| && b.Cast?
    requires Copies(s.sessions[q].enqueued, b) <= 1
    ensures q < |s'.sessions| && Copies(s'.sessions[q].enqueued, b) <= 1
  {
    Grows(s, m, s', q);
    var pc := s.threads[m.t].pc;
    assert s.sessions[q].enqueued + [] == s.sessions[q].enqueued;
    if m.c.Advance? && pc.SendLock? && pc.s == q {
      SumAppend(s.sessions[q].enqueued, pc.buffer, Is(b));
      if pc.buffer == b { FirstCopy(s, m.t, q); }
    }
  }

  lemma {:induction false} OnceStep(states: seq<State>, moves: seq<Move>, i: nat, q: nat, b: Buffer)
    requires Path(states, moves) && Init(states[0]) && i < |moves| && AllDistinct(states[i]) && b.Cast?
    requires q < |states[i + 1].sessions|
    ensures q < |states[i].sessions|
    ensures Copies(states[i].sessions[q].enqueued, b) <= 1 ==> Copies(states[i + 1].sessions[q].enqueued, b) <= 1
  {
    RunInv(states, moves, i);
    RunCounted(states, moves, i);
    assert Step(states[i], moves[i], states[i + 1]);
    IndexedKept(states[i], moves[i], states[i + 1]);
    if Copies(states[i].sessions[q].enqueued, b) <= 1 { OnceKept(states[i], moves[i], states[i + 1], q, b); }
  }

  /** Where rooms list no session twice, no session is given one broadcast twice, in any run. */
  lemma {:induction false} AtMostOnce(states: seq<State>, moves: seq<Move>, i: nat, q: nat, b: Buffer)
    requires Path(states, moves) && Init(states[0]) && i < |states| && q < |states[i].sessions| && b.Cast?
    requires forall k {:trigger AllDistinct(states[k])} :: 0 <= k < i ==> AllDistinct(states[k])
    ensures Copies(states[i].sessions[q].enqueued, b) <= 1
  {
    if i == 0 {
      assert states[0].sessions[q].enqueued == [];
    } else {
      assert AllDistinct(states[i - 1]);
      OnceStep(states, moves, i - 1, q, b);
      AtMostOnce(states, moves, i - 1, q, b);
    }
  }

  /** Dropped batches only take copies away. */
  lemma {:induction false} SentCopies(taken: seq<Batch>, b: Buffer)
    ensures Copies(Sent(taken), b) <= Copies(Flat(taken), b)
  {
    if taken != [] {
      var p, last := taken[..|taken| - 1], taken[|taken| - 1];
      SentCopies(p, b);
      SumConcat(Flat(p), last.buffers, Is(b));
      SumConcat(Sent(p), if last.posted then last.buffers else [], Is(b));
    }
  }

  predicate StrictlyInOrder(b: seq<Buffer>) {
    forall i, j :: 0 <= i < j < |b| && b[i].Cast? && b[j].Cast? && b[i].room == b[j].room ==>
      b[i].number < b[j].number
  }

  /** So what reaches a socket carries the broadcasts of any one room in strictly ascending order: none
      out of order and none twice. */
  lemma {:induction false} SentStrictly(states: seq<State>, moves: seq<Move>, i: nat, q: nat)
    requires Path(states, moves) && Init(states[0]) && i < |states| && q < |states[i].sessions|
    requires forall k {:trigger AllDistinct(states[k])} :: 0 <= k < i ==> AllDistinct(states[k])
    ensures StrictlyInOrder(Sent(states[i].sessions[q].taken))
  {
    RunInv(states, moves, i);
    SentInOrder(states, moves, i, q);
    var se := states[i].sessions[q];
    var sent := Sent(se.taken);
    assert SessionOk(se);
    forall a, b | 0 <= a < b < |sent| && sent[a].Cast? && sent[b].Cast? && sent[a].room == sent[b].room
      ensures sent[a].number < sent[b].number
    {
      var x := sent[a];
      AtMostOnce(states, moves, i, q, x);
      SentCopies(se.taken, x);
      assert se.enqueued == Flat(se.taken) + (se.hand + se.queue);
      SumConcat(Flat(se.taken), se.hand + se.queue, Is(x));
      SumPair(sent, a, b, Is(x));
    }
  }
}
