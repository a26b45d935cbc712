/** The send path of ServerCore/Session (Send, RegisterSend, ProcessSend) and Room::BroadCast, run
    together by any number of threads over any number of sessions and rooms.  A step is one atomic
    operation or one access to a session's queue under its lock; locks that are held across several
    steps (a room's, and a session's inside ProcessSend) are modelled as held. */
module Messaging {
  import opened Runs

  /** A SendBuffer, by where it came from: a direct Send, or the number-th broadcast of a room. */
  datatype Buffer = Direct(tag: nat) | Cast(room: nat, number: nat)

  /** Who answers for _sendRegistered being true: a thread, a completion to come, or nobody because
      the session was found disconnected. */
  datatype Right = Free | HeldBy(t: nat) | InFlight | Abandoned

  /** The buffers of one RegisterSend: handed to WSASend, or dropped because it failed. */
  datatype Batch = Batch(buffers: seq<Buffer>, posted: bool)

  /** enqueued, taken, hand, right and disturbed are history, for stating what the rest does:
      hand is what a thread has drained and neither posted nor dropped; disturbed records a
      disconnect, a failed WSASend or a completion of 0 bytes. */
  datatype Session = Session(
    connected: bool, registered: bool, queue: seq<Buffer>, event: seq<Buffer>, inFlight: nat, lock: Holder,
    enqueued: seq<Buffer>, taken: seq<Batch>, hand: seq<Buffer>, right: Right, disturbed: bool)

  /** users: the sessions of _users in map order.  next: how many broadcasts have begun. */
  datatype Room = Room(users: seq<nat>, lock: Holder, next: nat)

  /** The next operation of a thread, inside Send, RegisterSend or ProcessSend. */
  datatype Pc =
    | Idle
    | SendCheck(s: nat, buffer: Buffer)
    | SendLock(s: nat, buffer: Buffer)
    | SendExchange(s: nat)
    | RegCheck(s: nat, locked: bool)
    | RegDrain(s: nat, locked: bool)
    | RegPost(s: nat, locked: bool)
    | RegFail(s: nat, locked: bool, reset: bool)
    | RegClear(s: nat, locked: bool)
    | ZeroBytes(s: nat)
    | DoneLock(s: nat)

  /** A BroadCast in progress: the sends to targets[..started] have begun. */
  datatype Casting = NotCasting | Casting(room: nat, number: nat, except: seq<nat>, targets: seq<nat>, started: nat)

  datatype Thread = Thread(pc: Pc, cast: Casting)

  datatype State = State(sessions: seq<Session>, rooms: seq<Room>, threads: seq<Thread>)

  /** What the scheduler, the callers and the kernel decide. */
  datatype Choice =
    | Advance(posted: bool, reset: bool)    // the result of WSASend, where it matters
    | BeginSend(s: nat, tag: nat)
    | BeginCast(r: nat, except: seq<nat>)   // sessions left out: the excluded user's
    | NextTarget
    | EndCast
    | Complete(s: nat, zero: bool)          // IocpCore::Dispatch hands over a send completion
    | Disconnect(s: nat)
    | SetUsers(r: nat, users: seq<nat>)     // AddUser or RemoveUser, under the room lock

  datatype Move = Move(t: nat, c: Choice)

  // ---------------------------------------------------------------- one session

  function Unlocked(se: Session, locked: bool): Session { if locked then se.(lock := Nobody) else se }

  predicate SessionEnabled(se: Session, pc: Pc) {
    pc.SendLock? || pc.DoneLock? || (pc.RegDrain? && !pc.locked) ==> se.lock.Nobody?
  }

  /** One step of thread t inside the session's code. */
  function SessionAct(se: Session, t: nat, pc: Pc, posted: bool, reset: bool): (Session, Pc)
    requires !pc.Idle?
  {
    match pc
    case SendCheck(s, b) => (se, if se.connected then SendLock(s, b) else Idle)
    case SendLock(s, b) =>
      (se.(lock := By(t), queue := se.queue + [b], enqueued := se.enqueued + [b]), SendExchange(s))
    case SendExchange(s) =>
      if se.registered then (se.(lock := Nobody), Idle)
      else (se.(lock := Nobody, registered := true, right := HeldBy(t)), RegCheck(s, false))
    case RegCheck(s, locked) =>
      if se.connected then (se, RegDrain(s, locked))
      else (Unlocked(se.(right := Abandoned), locked), Idle)
    case RegDrain(s, locked) =>
      (se.(event := se.event + se.queue, hand := se.event + se.queue, queue := []), RegPost(s, locked))
    case RegPost(s, locked) =>
      if posted then
        (Unlocked(se.(inFlight := se.inFlight + 1, right := InFlight,
                      taken := se.taken + [Batch(se.event, true)], hand := []), locked), Idle)
      else (se.(disturbed := true), RegFail(s, locked, reset))
    case RegFail(s, locked, rst) =>
      (if rst then se.(connected := false) else se, RegClear(s, locked))
    case RegClear(s, locked) =>
      (Unlocked(se.(event := [], taken := se.taken + [Batch(se.hand, false)], hand := [],
                    registered := false, right := Free), locked), Idle)
    case ZeroBytes(s) => (se.(connected := false, right := Abandoned), Idle)
    case DoneLock(s) =>
      if se.queue == [] then (se.(registered := false, right := Free), Idle)
      else (se.(lock := By(t)), RegCheck(s, true))
  }

  function Completed(se: Session, t: nat, zero: bool): Session
    requires se.inFlight > 0
  {
    se.(inFlight := se.inFlight - 1, event := [], right := HeldBy(t), disturbed := se.disturbed || zero)
  }

  // ---------------------------------------------------------------- the whole system

  predicate Indexed(s: State, th: Thread) {
    && (!th.pc.Idle? ==> th.pc.s < |s.sessions|)
    && (th.cast.Casting? ==>
          && th.cast.room < |s.rooms| && th.cast.started <= |th.cast.targets|
          && forall i :: 0 <= i < |th.cast.targets| ==> th.cast.targets[i] < |s.sessions|)
  }

  predicate Enabled(s: State, m: Move) {
    && m.t < |s.threads|
    && var th := s.threads[m.t];
       Indexed(s, th) &&
       match m.c
       case Advance(_, _) => !th.pc.Idle? && SessionEnabled(s.sessions[th.pc.s], th.pc)
       case BeginSend(q, _) => th == Thread(Idle, NotCasting) && q < |s.sessions|
       case BeginCast(r, _) =>
         && th == Thread(Idle, NotCasting) && r < |s.rooms| && s.rooms[r].lock.Nobody?
         && forall i :: 0 <= i < |s.rooms[r].users| ==> s.rooms[r].users[i] < |s.sessions|
       case NextTarget => th.pc.Idle? && th.cast.Casting? && th.cast.started < |th.cast.targets|
       case EndCast => th.pc.Idle? && th.cast.Casting? && th.cast.started == |th.cast.targets|
       case Complete(q, _) =>
         th == Thread(Idle, NotCasting) && q < |s.sessions| && s.sessions[q].inFlight > 0
       case Disconnect(q) => q < |s.sessions|
       case SetUsers(r, _) => r < |s.rooms| && s.rooms[r].lock.Nobody?
  }

  /** The members a broadcast goes to, in map order. */
  function Targets(users: seq<nat>, except: seq<nat>): seq<nat> {
    if users == [] then []
    else (if users[0] in except then [] else [users[0]]) + Targets(users[1..], except)
  }

  function Next(s: State, m: Move): State
    requires Enabled(s, m)
  {
    var th := s.threads[m.t];
    match m.c
    case Advance(posted, reset) =>
      var (se', pc') := SessionAct(s.sessions[th.pc.s], m.t, th.pc, posted, reset);
      s.(sessions := s.sessions[th.pc.s := se'], threads := s.threads[m.t := th.(pc := pc')])
    case BeginSend(q, tag) => s.(threads := s.threads[m.t := th.(pc := SendCheck(q, Direct(tag)))])
    case BeginCast(r, except) =>
      var ro := s.rooms[r];
      s.(rooms := s.rooms[r := ro.(lock := By(m.t), next := ro.next + 1)],
         threads := s.threads[m.t := th.(cast := Casting(r, ro.next, except, Targets(ro.users, except), 0))])
    case NextTarget =>
      var c := th.cast;
      s.(threads := s.threads[m.t := Thread(SendCheck(c.targets[c.started], Cast(c.room, c.number)),
                                            c.(started := c.started + 1))])
    case EndCast =>
      s.(rooms := s.rooms[th.cast.room := s.rooms[th.cast.room].(lock := Nobody)],
         threads := s.threads[m.t := th.(cast := NotCasting)])
    case Complete(q, zero) =>
      s.(sessions := s.sessions[q := Completed(s.sessions[q], m.t, zero)],
         threads := s.threads[m.t := th.(pc := if zero then ZeroBytes(q) else DoneLock(q))])
    case Disconnect(q) =>
      s.(sessions := s.sessions[q := s.sessions[q].(connected := false, disturbed := true)])
    case SetUsers(r, users) => s.(rooms := s.rooms[r := s.rooms[r].(users := users)])
  }

  ghost predicate Step(s: State, m: Move, s': State) { Enabled(s, m) && s' == Next(s, m) }

  ghost predicate Path(states: seq<State>, moves: seq<Move>) { Linked(Step, states, moves) }

  predicate Init(s: State) {
    && (forall q :: 0 <= q < |s.sessions| ==>
          s.sessions[q] == Session(true, false, [], [], 0, Nobody, [], [], [], Free, false))
    && (forall r :: 0 <= r < |s.rooms| ==> s.rooms[r].lock.Nobody? && s.rooms[r].next == 0)
    && (forall t :: 0 <= t < |s.threads| ==> s.threads[t] == Thread(Idle, NotCasting))
  }

  // ---------------------------------------------------------------- invariant of one session

  function Flat(taken: seq<Batch>): seq<Buffer> {
    if taken == [] then [] else Flat(taken[..|taken| - 1]) + taken[|taken| - 1].buffers
  }

  /** What reached the socket, in order. */
  function Sent(taken: seq<Batch>): seq<Buffer> {
    if taken == [] then []
    else Sent(taken[..|taken| - 1])
         + (if taken[|taken| - 1].posted then taken[|taken| - 1].buffers else [])
  }

  predicate HasRight(pc: Pc) {
    pc.RegCheck? || pc.RegDrain? || pc.RegPost? || pc.RegFail? || pc.RegClear? || pc.ZeroBytes? || pc.DoneLock?
  }

  predicate HasLock(pc: Pc) {
    || pc.SendExchange?
    || ((pc.RegCheck? || pc.RegDrain? || pc.RegPost? || pc.RegFail? || pc.RegClear?) && pc.locked)
  }

  predicate Drained(pc: Pc) { pc.RegPost? || pc.RegFail? || pc.RegClear? }

  /** The flag, the outstanding sends and who answers for them. */
  predicate RightOk(se: Session) {
    && (se.registered <==> !se.right.Free?)
    && se.inFlight == (if se.right.InFlight? then 1 else 0)
    && (se.right.Free? || se.right.Abandoned? ==> se.event == [] && se.hand == [])
    && (se.right.InFlight? ==> se.hand == [])
    && (se.right.Abandoned? ==> !se.connected)
    && (!se.disturbed ==>
          && se.connected && !se.right.Abandoned?
          && (se.queue != [] ==> !se.right.Free? || se.lock.By?))
  }

  /** Every buffer enqueued is in exactly one batch, in hand or in the queue, in order. */
  predicate Accounted(enqueued: seq<Buffer>, taken: seq<Batch>, hand: seq<Buffer>, queue: seq<Buffer>,
                      disturbed: bool)
  {
    && enqueued == Flat(taken) + hand + queue
    && (forall i :: 0 <= i < |taken| ==> taken[i].buffers != [])
    && (!disturbed ==> Flat(taken) == Sent(taken))
  }

  predicate OrderOk(se: Session) { Accounted(se.enqueued, se.taken, se.hand, se.queue, se.disturbed) }

  predicate SessionOk(se: Session) { RightOk(se) && OrderOk(se) }

  /** Thread t, at pc, against session q. */
  predicate PairOk(t: nat, pc: Pc, q: nat, se: Session) {
    var here := !pc.Idle? && pc.s == q;
    && (here && HasRight(pc) <==> se.right == HeldBy(t))
    && (here && HasLock(pc) <==> se.lock == By(t))
    && (here && (pc.SendExchange? || pc.RegCheck? || pc.RegDrain?) ==> se.queue != [])
    && (here && Drained(pc) ==> se.event == se.hand != [])
    && (here && HasRight(pc) && !Drained(pc) ==> se.event == [] && se.hand == [])
    && (here && (pc.RegFail? || pc.RegClear? || pc.ZeroBytes?) ==> se.disturbed)
  }

  lemma {:induction false} RightKept(se: Session, t: nat, pc: Pc, posted: bool, reset: bool)
    requires RightOk(se) && !pc.Idle? && PairOk(t, pc, pc.s, se) && SessionEnabled(se, pc)
    ensures RightOk(SessionAct(se, t, pc, posted, reset).0)
  {
  }

  lemma {:induction false} BatchAppended(taken: seq<Batch>, b: Batch)
    ensures Flat(taken + [b]) == Flat(taken) + b.buffers
    ensures Sent(taken + [b]) == Sent(taken) + (if b.posted then b.buffers else [])
  {
    assert (taken + [b])[..|taken|] == taken;
  }

  /** What was in hand becomes a batch, posted or dropped. */
  lemma {:induction false} HandTaken(enqueued: seq<Buffer>, taken: seq<Batch>, b: Batch, queue: seq<Buffer>,
                                     disturbed: bool)
    requires Accounted(enqueued, taken, b.buffers, queue, disturbed)
    requires b.buffers != [] && (!disturbed ==> b.posted)
    ensures Accounted(enqueued, taken + [b], [], queue, disturbed)
  {
    BatchAppended(taken, b);
    assert Flat(taken + [b]) + [] + queue == Flat(taken) + b.buffers + queue;
  }

  lemma {:induction false} BatchKept(se: Session, t: nat, pc: Pc, posted: bool, reset: bool)
    requires OrderOk(se) && (pc.RegPost? || pc.RegClear?) && PairOk(t, pc, pc.s, se)
    ensures OrderOk(SessionAct(se, t, pc, posted, reset).0)
  {
    var se' := SessionAct(se, t, pc, posted, reset).0;
    if pc.RegClear? || posted {
      var b := Batch(se.hand, pc.RegPost?);
      HandTaken(se.enqueued, se.taken, b, se.queue, se.disturbed);
      assert se'.taken == se.taken + [b] && se'.hand == [];
    }
  }

  lemma {:induction false} QueueKept(se: Session, t: nat, pc: Pc, posted: bool, reset: bool)
    requires OrderOk(se) && !pc.Idle? && PairOk(t, pc, pc.s, se) && !pc.RegPost? && !pc.RegClear?
    ensures OrderOk(SessionAct(se, t, pc, posted, reset).0)
  {
  }

  lemma {:induction false} OrderKept(se: Session, t: nat, pc: Pc, posted: bool, reset: bool)
    requires OrderOk(se) && !pc.Idle? && PairOk(t, pc, pc.s, se) && SessionEnabled(se, pc)
    ensures OrderOk(SessionAct(se, t, pc, posted, reset).0)
  {
    if pc.RegPost? || pc.RegClear? {
      BatchKept(se, t, pc, posted, reset);
    } else {
      QueueKept(se, t, pc, posted, reset);
    }
  }

  lemma {:induction false} MoverKept(se: Session, t: nat, pc: Pc, posted: bool, reset: bool)
    requires RightOk(se) && !pc.Idle? && PairOk(t, pc, pc.s, se) && SessionEnabled(se, pc)
    ensures var (se', pc') := SessionAct(se, t, pc, posted, reset); PairOk(t, pc', pc.s, se')
  {
  }

  lemma {:induction false} OtherKept(se: Session, t: nat, pc: Pc, posted: bool, reset: bool, u: nat, other: Pc)
    requires RightOk(se) && !pc.Idle? && PairOk(t, pc, pc.s, se) && SessionEnabled(se, pc)
    requires t != u && PairOk(u, other, pc.s, se)
    ensures PairOk(u, other, pc.s, SessionAct(se, t, pc, posted, reset).0)
  {
  }

  // ---------------------------------------------------------------- invariant of the system

  predicate HoldersExist(s: State, se: Session) {
    && (se.right.HeldBy? ==> se.right.t < |s.threads|)
    && (se.lock.By? ==> se.lock.t < |s.threads|)
  }

  ghost predicate SessionsOk(s: State) {
    && (forall t :: 0 <= t < |s.threads| ==> Indexed(s, s.threads[t]))
    && (forall q :: 0 <= q < |s.sessions| ==> SessionOk(s.sessions[q]) && HoldersExist(s, s.sessions[q]))
    && (forall t, q :: 0 <= t < |s.threads| && 0 <= q < |s.sessions| ==>
          PairOk(t, s.threads[t].pc, q, s.sessions[q]))
  }

  /** A thread broadcasts exactly while it has the room's lock, and always the newest number; and
      it carries no other room buffer. */
  predicate CastOk(rooms: seq<Room>, t: nat, th: Thread) {
    && (forall r :: 0 <= r < |rooms| ==> (rooms[r].lock == By(t) <==> th.cast.Casting? && th.cast.room == r))
    && (th.cast.Casting? ==>
          && th.cast.room < |rooms| && th.cast.number + 1 == rooms[th.cast.room].next
          && th.cast.targets == Targets(rooms[th.cast.room].users, th.cast.except))
    && ((th.pc.SendCheck? || th.pc.SendLock?) && (th.pc.buffer.Cast? || th.cast.Casting?) ==>
          && th.cast.Casting? && th.pc.buffer == Cast(th.cast.room, th.cast.number)
          && 0 < th.cast.started <= |th.cast.targets| && th.cast.targets[th.cast.started - 1] == th.pc.s)
  }

  /** Every number used has been given out, and a session sees a room's numbers in order. */
  predicate NumbersOk(rooms: seq<Room>, enqueued: seq<Buffer>) {
    && (forall i :: 0 <= i < |enqueued| && enqueued[i].Cast? ==>
          enqueued[i].room < |rooms| && enqueued[i].number < rooms[enqueued[i].room].next)
    && InOrder(enqueued)
  }

  predicate InOrder(b: seq<Buffer>) {
    forall i, j :: 0 <= i < j < |b| && b[i].Cast? && b[j].Cast? && b[i].room == b[j].room ==>
      b[i].number <= b[j].number
  }

  ghost predicate Inv(s: State) {
    && SessionsOk(s)
    && (forall t :: 0 <= t < |s.threads| ==> CastOk(s.rooms, t, s.threads[t]))
    && (forall q :: 0 <= q < |s.sessions| ==> NumbersOk(s.rooms, s.sessions[q].enqueued))
  }

  lemma {:induction false} InitInv(s: State)
    requires Init(s)
    ensures Inv(s)
  {
  }

  lemma {:induction false} TargetsFrom(users: seq<nat>, except: seq<nat>)
    ensures forall x :: x in Targets(users, except) <==> x in users && x !in except
  {
    if users != [] {
      TargetsFrom(users[1..], except);
    }
  }

  lemma {:induction false} IndexedKept(s: State, m: Move, s': State)
    requires SessionsOk(s) && Step(s, m, s')
    ensures |s'.sessions| == |s.sessions| && |s'.rooms| == |s.rooms| && |s'.threads| == |s.threads|
    ensures forall t :: 0 <= t < |s'.threads| ==> Indexed(s', s'.threads[t])
    ensures forall t :: 0 <= t < |s'.threads| && t != m.t ==> s'.threads[t] == s.threads[t]
  {
    if m.c.BeginCast? {
      var ro := s.rooms[m.c.r];
      TargetsFrom(ro.users, m.c.except);
      var ts := Targets(ro.users, m.c.except);
      forall i | 0 <= i < |ts|
        ensures ts[i] < |s.sessions|
      {
        assert ts[i] in ro.users;
      }
    }
  }

  lemma {:induction false} OneSessionKept(s: State, m: Move, s': State, q: nat)
    requires SessionsOk(s) && Step(s, m, s') && q < |s.sessions|
    ensures q < |s'.sessions| && SessionOk(s'.sessions[q])
  {
    assert SessionOk(s.sessions[q]);
    var th := s.threads[m.t];
    if m.c.Advance? && th.pc.s == q {
      assert PairOk(m.t, th.pc, q, s.sessions[q]);
      RightKept(s.sessions[q], m.t, th.pc, m.c.posted, m.c.reset);
      OrderKept(s.sessions[q], m.t, th.pc, m.c.posted, m.c.reset);
    }
  }

  /** Only the mover is handed the right or the lock. */
  lemma {:induction false} HoldersAct(se: Session, t: nat, pc: Pc, posted: bool, reset: bool)
    requires !pc.Idle?
    ensures var se' := SessionAct(se, t, pc, posted, reset).0;
            && (se'.right.HeldBy? ==> se'.right == HeldBy(t) || se'.right == se.right)
            && (se'.lock.By? ==> se'.lock == By(t) || se'.lock == se.lock)
  {
  }

  lemma {:induction false} HoldersKept(s: State, m: Move, s': State, q: nat)
    requires SessionsOk(s) && Step(s, m, s') && q < |s.sessions|
    ensures q < |s'.sessions| && HoldersExist(s', s'.sessions[q])
  {
    assert HoldersExist(s, s.sessions[q]);
    var pc := s.threads[m.t].pc;
    if m.c.Advance? {
      HoldersAct(s.sessions[pc.s], m.t, pc, m.c.posted, m.c.reset);
    }
  }

  lemma {:induction false} PairKept(s: State, m: Move, s': State, t: nat, q: nat)
    requires SessionsOk(s) && Step(s, m, s') && t < |s.threads| && q < |s.sessions|
    ensures t < |s'.threads| && q < |s'.sessions| && PairOk(t, s'.threads[t].pc, q, s'.sessions[q])
  {
    var th := s.threads[m.t];
    assert SessionOk(s.sessions[q]);
    assert PairOk(m.t, th.pc, q, s.sessions[q]) && PairOk(t, s.threads[t].pc, q, s.sessions[q]);
    if m.c.Advance? && th.pc.s == q {
      MoverKept(s.sessions[q], m.t, th.pc, m.c.posted, m.c.reset);
      if t != m.t {
        OtherKept(s.sessions[q], m.t, th.pc, m.c.posted, m.c.reset, t, s.threads[t].pc);
      }
    }
  }

  lemma {:induction false} SessionsKept(s: State, m: Move, s': State)
    requires SessionsOk(s) && Step(s, m, s')
    ensures SessionsOk(s')
  {
    IndexedKept(s, m, s');
    forall q | 0 <= q < |s.sessions|
      ensures SessionOk(s'.sessions[q]) && HoldersExist(s', s'.sessions[q])
    {
      OneSessionKept(s, m, s', q);
      HoldersKept(s, m, s', q);
    }
    forall t, q | 0 <= t < |s.threads| && 0 <= q < |s.sessions|
      ensures PairOk(t, s'.threads[t].pc, q, s'.sessions[q])
    {
      PairKept(s, m, s', t, q);
    }
  }

  /** Nothing is taken back: connections are only lost and the record of buffers only grows. */
  lemma {:induction false} Grows(s: State, m: Move, s': State, q: nat)
    requires SessionsOk(s) && Step(s, m, s') && q < |s.sessions|
    ensures q < |s'.sessions|
    ensures s'.sessions[q].connected ==> s.sessions[q].connected
    ensures var pc := s.threads[m.t].pc;
            s'.sessions[q].enqueued == s.sessions[q].enqueued
              + (if m.c.Advance? && pc.SendLock? && pc.s == q then [pc.buffer] else [])
  {
  }

  /** The room locks, numbers and members, as one step changes them; members never under the lock. */
  lemma {:induction false} RoomsEffect(s: State, m: Move, s': State, r: nat)
    requires Step(s, m, s') && r < |s.rooms|
    ensures r < |s'.rooms|
    ensures var begins := m.c.BeginCast? && m.c.r == r;
            var ends := m.c.EndCast? && s.threads[m.t].cast.room == r;
            && s'.rooms[r].next == s.rooms[r].next + (if begins then 1 else 0)
            && s'.rooms[r].lock == (if begins then By(m.t) else if ends then Nobody else s.rooms[r].lock)
            && (begins ==> s.rooms[r].lock.Nobody?)
            && s'.rooms[r].users == (if m.c.SetUsers? && m.c.r == r then m.c.users else s.rooms[r].users)
            && (m.c.SetUsers? && m.c.r == r ==> s.rooms[r].lock.Nobody?)
  {
  }

  lemma {:induction false} CastKept(s: State, m: Move, s': State, t: nat)
    requires Inv(s) && Step(s, m, s') && t < |s.threads|
    ensures t < |s'.threads| && CastOk(s'.rooms, t, s'.threads[t])
  {
    IndexedKept(s, m, s');
    assert CastOk(s.rooms, t, s.threads[t]) && CastOk(s.rooms, m.t, s.threads[m.t]);
    forall r | 0 <= r < |s.rooms| { RoomsEffect(s, m, s', r); }
    if t == m.t {
      MoverThread(s, m, s');
    }
  }

  /** How the mover's broadcast moves on. */
  lemma {:induction false} MoverThread(s: State, m: Move, s': State)
    requires SessionsOk(s) && Step(s, m, s')
    ensures |s'.threads| == |s.threads|
    ensures var th, th' := s.threads[m.t], s'.threads[m.t];
            var sends, sends' := th.pc.SendCheck? || th.pc.SendLock?, th'.pc.SendCheck? || th'.pc.SendLock?;
            match m.c
            case BeginSend(_, _) => th.cast.NotCasting? && th'.cast.NotCasting? && sends' && th'.pc.buffer.Direct?
            case BeginCast(r, except) =>
              && th.cast.NotCasting? && r < |s.rooms| && !sends'
              && th'.cast == Casting(r, s.rooms[r].next, except, Targets(s.rooms[r].users, except), 0)
            case NextTarget =>
              && th.cast.Casting? && th.cast.started < |th.cast.targets| && !sends
              && th' == Thread(SendCheck(th.cast.targets[th.cast.started], Cast(th.cast.room, th.cast.number)),
                               th.cast.(started := th.cast.started + 1))
            case EndCast => th.cast.Casting? && th'.cast.NotCasting? && !sends'
            case _ =>
              && th'.cast == th.cast
              && (sends' ==> sends && th'.pc.s == th.pc.s && th'.pc.buffer == th.pc.buffer)
              && (sends && !sends' ==>
                    && m.c.Advance? && th.pc.s < |s.sessions|
                    && (th.pc.SendCheck? ==> !s.sessions[th.pc.s].connected))
  {
  }

  /** A record stays in order when rooms move on and the newest number of some room is added. */
  lemma {:induction false} NumbersGrow(rooms: seq<Room>, rooms': seq<Room>, enqueued: seq<Buffer>, more: seq<Buffer>)
    requires NumbersOk(rooms, enqueued) && |rooms'| == |rooms| && |more| <= 1
    requires forall r :: 0 <= r < |rooms| ==> rooms[r].next <= rooms'[r].next
    requires more != [] && more[0].Cast? ==> more[0].room < |rooms| && more[0].number + 1 == rooms[more[0].room].next
    ensures NumbersOk(rooms', enqueued + more)
  {
  }

  lemma {:induction false} NumbersKept(s: State, m: Move, s': State, q: nat)
    requires Inv(s) && Step(s, m, s') && q < |s.sessions|
    ensures q < |s'.sessions| && NumbersOk(s'.rooms, s'.sessions[q].enqueued)
  {
    Grows(s, m, s', q);
    IndexedKept(s, m, s');
    forall r | 0 <= r < |s.rooms| { RoomsEffect(s, m, s', r); }
    assert NumbersOk(s.rooms, s.sessions[q].enqueued);
    assert CastOk(s.rooms, m.t, s.threads[m.t]);
    var pc := s.threads[m.t].pc;
    var more := if m.c.Advance? && pc.SendLock? && pc.s == q then [pc.buffer] else [];
    NumbersGrow(s.rooms, s'.rooms, s.sessions[q].enqueued, more);
  }

  lemma {:induction false} Preserve(s: State, m: Move, s': State)
    requires Inv(s) && Step(s, m, s')
    ensures Inv(s')
  {
    SessionsKept(s, m, s');
    IndexedKept(s, m, s');
    forall t | 0 <= t < |s.threads|
      ensures CastOk(s'.rooms, t, s'.threads[t])
    {
      CastKept(s, m, s', t);
    }
    forall q | 0 <= q < |s.sessions|
      ensures NumbersOk(s'.rooms, s'.sessions[q].enqueued)
    {
      NumbersKept(s, m, s', q);
    }
  }

  lemma {:induction false} RunInv(states: seq<State>, moves: seq<Move>, i: nat)
    requires Path(states, moves) && Init(states[0]) && i < |states|
    ensures Inv(states[i])
  {
    if i == 0 {
      InitInv(states[0]);
    } else {
      RunInv(states, moves, i - 1);
      Preserve(states[i - 1], moves[i - 1], states[i]);
    }
  }

  // ---------------------------------------------------------------- results

  /** In every state of every run, for every session: at most one WSASend is outstanding and no
      batch was empty; every buffer ever accepted by Send is, in order, in a batch, in the hands of
      the sending thread or in the queue; and, unless the session was disturbed, the batches all
      reached the socket and a queue that is not empty has a thread or a completion answering for it. */
  lemma {:induction false} SendProtocol(states: seq<State>, moves: seq<Move>, i: nat, q: nat)
    requires Path(states, moves) && Init(states[0]) && i < |states| && q < |states[i].sessions|
    ensures var s := states[i];
            var se := s.sessions[q];
            && se.inFlight <= 1
            && (forall k :: 0 <= k < |se.taken| ==> se.taken[k].buffers != [])
            && se.enqueued == Flat(se.taken) + se.hand + se.queue
            && (!se.disturbed ==> se.enqueued == Sent(se.taken) + se.hand + se.queue)
            && (!se.disturbed && se.queue != [] && se.inFlight == 0 ==> Answered(s, q))
  {
    RunInv(states, moves, i);
    var s := states[i];
    var se := s.sessions[q];
    assert SessionOk(se);
    AnsweredMeans(s, q);
  }

  /** Some thread is on its way to drain the queue of q, or holds its lock to decide who will. */
  ghost predicate Answered(s: State, q: nat) {
    exists t :: 0 <= t < |s.threads| && AnswersFor(s.threads[t].pc, q)
  }

  predicate AnswersFor(pc: Pc, q: nat) { (HasRight(pc) || HasLock(pc)) && pc.s == q }

  /** The step disconnects q, completes a send of q with 0 bytes, or finds WSASend refused for q. */
  predicate Disturbs(s: State, m: Move, q: nat) {
    && m.t < |s.threads|
    && var pc := s.threads[m.t].pc;
       || m.c == Disconnect(q) || m.c == Complete(q, true)
       || (m.c.Advance? && !m.c.posted && pc.RegPost? && pc.s == q)
  }

  lemma {:induction false} DisturbedExactly(s: State, m: Move, s': State, q: nat)
    requires SessionsOk(s) && Step(s, m, s') && q < |s.sessions|
    ensures q < |s'.sessions|
    ensures s'.sessions[q].disturbed <==> s.sessions[q].disturbed || Disturbs(s, m, q)
  {
  }

  /** In every run without such a step the batches all reached the socket, so that the buffers given
      to Send are exactly those sent, in hand and queued, in order. */
  lemma {:induction false} NothingLost(states: seq<State>, moves: seq<Move>, i: nat, q: nat)
    requires Path(states, moves) && Init(states[0]) && i < |states| && q < |states[i].sessions|
    requires forall k {:trigger moves[k]} :: 0 <= k < i ==> !Disturbs(states[k], moves[k], q)
    ensures var se := states[i].sessions[q];
            !se.disturbed && se.connected && se.enqueued == Sent(se.taken) + se.hand + se.queue
  {
    RunInv(states, moves, i);
    assert SessionOk(states[i].sessions[q]);
    if i > 0 {
      RunInv(states, moves, i - 1);
      assert Step(states[i - 1], moves[i - 1], states[i]);
      IndexedKept(states[i - 1], moves[i - 1], states[i]);
      NothingLost(states, moves, i - 1, q);
      DisturbedExactly(states[i - 1], moves[i - 1], states[i], q);
    }
  }

  lemma {:induction false} InOrderParts(a: seq<Buffer>, b: seq<Buffer>)
    requires InOrder(a + b)
    ensures InOrder(a) && InOrder(b)
    ensures forall i, j :: 0 <= i < |a| && 0 <= j < |b| && a[i].Cast? && b[j].Cast? && a[i].room == b[j].room
              ==> a[i].number <= b[j].number
  {
    var ab := a + b;
    assert forall i :: 0 <= i < |a| ==> ab[i] == a[i];
    assert forall j :: 0 <= j < |b| ==> ab[|a| + j] == b[j];
    forall i, j | 0 <= i < j < |b| && b[i].Cast? && b[j].Cast? && b[i].room == b[j].room
      ensures b[i].number <= b[j].number
    {
      assert ab[|a| + i] == b[i] && ab[|a| + j] == b[j];
    }
    forall i, j | 0 <= i < |a| && 0 <= j < |b| && a[i].Cast? && b[j].Cast? && a[i].room == b[j].room
      ensures a[i].number <= b[j].number
    {
      assert ab[i] == a[i] && ab[|a| + j] == b[j];
    }
  }

  /** Dropping whole batches reorders nothing. */
  lemma {:induction false} DropsKeepOrder(taken: seq<Batch>)
    requires InOrder(Flat(taken))
    ensures InOrder(Sent(taken))
    ensures forall x :: x in Sent(taken) ==> x in Flat(taken)
  {
    if taken != [] {
      var p, b := taken[..|taken| - 1], taken[|taken| - 1];
      InOrderParts(Flat(p), b.buffers);
      DropsKeepOrder(p);
      forall i, j | 0 <= i < j < |Sent(taken)| && Sent(taken)[i].Cast? && Sent(taken)[j].Cast?
                    && Sent(taken)[i].room == Sent(taken)[j].room
        ensures Sent(taken)[i].number <= Sent(taken)[j].number
      {
        if i < |Sent(p)| <= j {
          assert Sent(p)[i] in Flat(p);
        }
      }
    }
  }

  /** What reaches a socket carries the broadcasts of any one room in the order they were begun. */
  lemma {:induction false} SentInOrder(states: seq<State>, moves: seq<Move>, i: nat, q: nat)
    requires Path(states, moves) && Init(states[0]) && i < |states| && q < |states[i].sessions|
    ensures InOrder(Sent(states[i].sessions[q].taken))
  {
    RunInv(states, moves, i);
    var se := states[i].sessions[q];
    assert SessionOk(se) && NumbersOk(states[i].rooms, se.enqueued);
    assert se.enqueued == Flat(se.taken) + (se.hand + se.queue);
    InOrderParts(Flat(se.taken), se.hand + se.queue);
    DropsKeepOrder(se.taken);
  }

  predicate Before(b: seq<Buffer>, x: Buffer, y: Buffer) {
    exists i, j :: 0 <= i < j < |b| && b[i] == x && b[j] == y
  }

  /** Two members that are both sent two broadcasts of a room are sent them in the same order, in
      every interleaving of broadcasts, direct sends, completions, failures and disconnects. */
  lemma {:induction false} MembersAgree(states: seq<State>, moves: seq<Move>, i: nat, a: nat, b: nat,
                                        x: Buffer, y: Buffer)
    requires Path(states, moves) && Init(states[0]) && i < |states|
    requires a < |states[i].sessions| && b < |states[i].sessions|
    requires x.Cast? && y.Cast? && x.room == y.room && x != y
    requires Before(Sent(states[i].sessions[a].taken), x, y)
    ensures !Before(Sent(states[i].sessions[b].taken), y, x)
  {
    SentInOrder(states, moves, i, a);
    SentInOrder(states, moves, i, b);
  }

  // ---------------------------------------------------------------- when a queue is left waiting

  /** Connected, with buffers waiting, no completion to come and no thread on its way. */
  ghost predicate Stalled(s: State, q: nat) {
    && q < |s.sessions|
    && var se := s.sessions[q];
       se.connected && se.queue != [] && se.inFlight == 0 && !Answered(s, q)
  }

  /** The step gives up the flag after a failed WSASend, on a session that is still connected and
      has had more queued, with nobody in the middle of a Send to it. */
  predicate WalksAway(s: State, m: Move, q: nat) {
    && m.t < |s.threads| && q < |s.sessions|
    && var pc, se := s.threads[m.t].pc, s.sessions[q];
       && m.c.Advance? && pc.RegClear? && pc.s == q
       && se.connected && se.queue != [] && (se.lock.Nobody? || pc.locked)
  }

  /** The step stores a buffer in q's queue, or cuts the connection. */
  predicate TurnsTo(s: State, m: Move, q: nat) {
    && m.t < |s.threads|
    && var pc := s.threads[m.t].pc;
       (m.c.Advance? && pc.SendLock? && pc.s == q) || m.c == Disconnect(q)
  }

  /** Somebody answers for q exactly when the flag's right or the lock is with a thread. */
  lemma {:induction false} AnsweredMeans(s: State, q: nat)
    requires SessionsOk(s) && q < |s.sessions|
    ensures Answered(s, q) <==> s.sessions[q].right.HeldBy? || s.sessions[q].lock.By?
  {
    var se := s.sessions[q];
    assert HoldersExist(s, se);
    if se.right.HeldBy? || se.lock.By? {
      var t := if se.right.HeldBy? then se.right.t else se.lock.t;
      assert PairOk(t, s.threads[t].pc, q, se);
      assert AnswersFor(s.threads[t].pc, q);
    }
    forall t | 0 <= t < |s.threads| && AnswersFor(s.threads[t].pc, q)
      ensures se.right.HeldBy? || se.lock.By?
    {
      assert PairOk(t, s.threads[t].pc, q, se);
    }
  }

  lemma {:induction false} StalledMeans(s: State, q: nat)
    requires SessionsOk(s) && q < |s.sessions|
    ensures var se := s.sessions[q];
            Stalled(s, q) <==> se.connected && se.queue != [] && se.right.Free? && se.lock.Nobody?
  {
    AnsweredMeans(s, q);
    assert SessionOk(s.sessions[q]);
  }

  /** Whatever step is taken, by senders, broadcasts, completions or disconnects: it leaves a queue
      waiting with nobody responsible if and only if it gives up the flag after a failed WSASend. */
  lemma {:induction false} StallsExactly(s: State, m: Move, s': State, q: nat)
    requires Inv(s) && Step(s, m, s') && q < |s.sessions| && !Stalled(s, q)
    ensures Stalled(s', q) <==> WalksAway(s, m, q)
  {
    Preserve(s, m, s');
    IndexedKept(s, m, s');
    StalledMeans(s, q);
    StalledMeans(s', q);
    assert SessionOk(s.sessions[q]) && PairOk(m.t, s.threads[m.t].pc, q, s.sessions[q]);
  }

  /** And it goes on waiting until the next Send stores a buffer or the connection is cut. */
  lemma {:induction false} StallEndsExactly(s: State, m: Move, s': State, q: nat)
    requires Inv(s) && Step(s, m, s') && q < |s.sessions| && Stalled(s, q)
    ensures Stalled(s', q) <==> !TurnsTo(s, m, q)
  {
    Preserve(s, m, s');
    IndexedKept(s, m, s');
    StalledMeans(s, q);
    StalledMeans(s', q);
    assert SessionOk(s.sessions[q]) && PairOk(m.t, s.threads[m.t].pc, q, s.sessions[q]);
  }

  lemma {:induction false} StallBefore(states: seq<State>, moves: seq<Move>, i: nat, q: nat)
    requires Path(states, moves) && Init(states[0]) && 0 < i < |states| && Stalled(states[i], q)
    ensures Stalled(states[i - 1], q) || WalksAway(states[i - 1], moves[i - 1], q)
  {
    var s, m := states[i - 1], moves[i - 1];
    RunInv(states, moves, i - 1);
    assert Step(s, m, states[i]);
    IndexedKept(s, m, states[i]);
    if !Stalled(s, q) {
      StallsExactly(s, m, states[i], q);
    }
  }

  /** In every run, a queue that waits with nobody responsible has a failed WSASend behind it, and
      has waited ever since. */
  lemma {:induction false} StallHasCause(states: seq<State>, moves: seq<Move>, i: nat, q: nat) returns (k: nat)
    requires Path(states, moves) && Init(states[0]) && i < |states| && Stalled(states[i], q)
    ensures k < i && WalksAway(states[k], moves[k], q)
    ensures forall j :: k < j <= i ==> Stalled(states[j], q)
  {
    StallBefore(states, moves, i, q);
    k := i - 1;
    if Stalled(states[i - 1], q) {
      k := StallHasCause(states, moves, i - 1, q);
    }
  }

  function Two(se: Session, a: Pc, b: Pc): State {
    State([se], [], [Thread(a, NotCasting), Thread(b, NotCasting)])
  }

  /** Thread t of two makes the next move inside the only session, a WSASend failing if it comes up. */
  lemma {:induction false} Hop(states: seq<State>, moves: seq<Move>, t: nat, se: Session, a: Pc, b: Pc,
                               se': Session, pc': Pc)
    returns (states': seq<State>, moves': seq<Move>)
    requires Path(states, moves) && states[|states| - 1] == Two(se, a, b) && t < 2
    requires var pc := if t == 0 then a else b;
             !pc.Idle? && pc.s == 0 && SessionEnabled(se, pc) && SessionAct(se, t, pc, false, false) == (se', pc')
    ensures Path(states', moves') && states'[0] == states[0]
    ensures states'[|states'| - 1] == if t == 0 then Two(se', pc', b) else Two(se', a, pc')
  {
    var s, m := states[|states| - 1], Move(t, Advance(false, false));
    states', moves' := Extend(Step, states, moves, m, Next(s, m));
    assert [se][0 := se'] == [se'];
    assert Next(s, m).threads == (if t == 0 then Two(se', pc', b) else Two(se', a, pc')).threads;
  }

  const FRESH := Session(true, false, [], [], 0, Nobody, [], [], [], Free, false)

  /** The first thread has drained its own buffer; the second is about to send. */
  const DRAINED := FRESH.(registered := true, right := HeldBy(0), event := [Direct(1)], hand := [Direct(1)],
                           enqueued := [Direct(1)])

  lemma {:induction false} TwoSendersBegin() returns (states: seq<State>, moves: seq<Move>)
    ensures Path(states, moves) && Init(states[0])
    ensures states[|states| - 1] == Two(FRESH, SendCheck(0, Direct(1)), SendCheck(0, Direct(2)))
  {
    var x, y := Direct(1), Direct(2);
    var s0, s1 := Two(FRESH, Idle, Idle), Two(FRESH, SendCheck(0, x), Idle);
    assert s0.threads[0 := s1.threads[0]] == s1.threads;
    states, moves := Extend(Step, [s0], [], Move(0, BeginSend(0, 1)), s1);
    var s2 := Two(FRESH, SendCheck(0, x), SendCheck(0, y));
    assert s1.threads[1 := s2.threads[1]] == s2.threads;
    states, moves := Extend(Step, states, moves, Move(1, BeginSend(0, 2)), s2);
  }

  lemma {:induction false} FirstDrains() returns (states: seq<State>, moves: seq<Move>)
    ensures Path(states, moves) && Init(states[0])
    ensures states[|states| - 1] == Two(DRAINED, RegPost(0, false), SendCheck(0, Direct(2)))
  {
    var x, y := Direct(1), SendCheck(0, Direct(2));
    states, moves := TwoSendersBegin();
    states, moves := Hop(states, moves, 0, FRESH, SendCheck(0, x), y, FRESH, SendLock(0, x));
    var e1 := FRESH.(lock := By(0), queue := [] + [x], enqueued := [] + [x]);
    states, moves := Hop(states, moves, 0, FRESH, SendLock(0, x), y, e1, SendExchange(0));
    var e2 := e1.(lock := Nobody, registered := true, right := HeldBy(0));
    states, moves := Hop(states, moves, 0, e1, SendExchange(0), y, e2, RegCheck(0, false));
    states, moves := Hop(states, moves, 0, e2, RegCheck(0, false), y, e2, RegDrain(0, false));
    assert [] + ([] + [x]) == [x] == [] + [x];
    states, moves := Hop(states, moves, 0, e2, RegDrain(0, false), y, DRAINED, RegPost(0, false));
  }

  lemma {:induction false} SecondQueues() returns (states: seq<State>, moves: seq<Move>)
    ensures Path(states, moves) && Init(states[0])
    ensures states[|states| - 1]
      == Two(DRAINED.(queue := [Direct(2)], enqueued := [Direct(1), Direct(2)]), RegPost(0, false), Idle)
  {
    var y := Direct(2);
    states, moves := FirstDrains();
    states, moves := Hop(states, moves, 1, DRAINED, RegPost(0, false), SendCheck(0, y), DRAINED, SendLock(0, y));
    assert [] + [y] == [y] && [Direct(1)] + [y] == [Direct(1), y];
    var e1 := DRAINED.(lock := By(1), queue := [y], enqueued := [Direct(1), y]);
    states, moves := Hop(states, moves, 1, DRAINED, RegPost(0, false), SendLock(0, y), e1, SendExchange(0));
    states, moves := Hop(states, moves, 1, e1, RegPost(0, false), SendExchange(0), e1.(lock := Nobody), Idle);
  }

  /** The failure is real: two threads send, the first one's WSASend fails after the second has
      queued its buffer, and that buffer is left with nobody to send it. */
  lemma {:induction false} StallHappens() returns (states: seq<State>, moves: seq<Move>)
    ensures Path(states, moves) && Init(states[0])
    ensures var s := states[|states| - 1];
            |s.sessions| == 1 && Stalled(s, 0)
  {
    states, moves := SecondQueues();
    var e := DRAINED.(queue := [Direct(2)], enqueued := [Direct(1), Direct(2)]);
    var e1 := e.(disturbed := true);
    states, moves := Hop(states, moves, 0, e, RegPost(0, false), Idle, e1, RegFail(0, false, false));
    states, moves := Hop(states, moves, 0, e1, RegFail(0, false, false), Idle, e1, RegClear(0, false));
    var e2 := e1.(event := [], taken := [] + [Batch(e.hand, false)], hand := [], registered := false, right := Free);
    states, moves := Hop(states, moves, 0, e1, RegClear(0, false), Idle, e2, Idle);
  }
}
