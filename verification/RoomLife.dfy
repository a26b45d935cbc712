/** The life of one chat room (Server/LobbyRespondent.h, Server/RoomHandler): created by one
    handler, joined without a lock by a CAS on roomState, left under the room's lock, and destroyed
    by whoever takes roomState to 0 and wins the CAS to Destruction.  Its database row is updated in
    separate statements.  Any number of threads; an ASSERT_CRASH ends the run. */
module RoomLife {
  import opened Runs
  import opened Tally

  const DESTRUCTION := -1
  const EMPTY := 0

  type User = nat

  /** The row of chat.room, if it exists, with its user_count. */
  datatype Row = NoRow | Row(count: int)

  /** How far the creating handler has come. */
  datatype Stage = Unborn | HasRow | Built | Shared

  /** ghosts, destructions and removals are history: joins that won the CAS and then added nobody,
      successful CASes to Destruction, and completed calls of RemoveRoom. */
  datatype Room = Room(
    state: int, users: set<User>, lock: Holder, row: Row, listed: bool, stage: Stage, crashed: bool,
    ghosts: nat, destructions: nat, removals: nat)

  /** The next operation of a thread. */
  datatype Pc =
    | Idle
    | CreateBuild(u: User) | CreateCount | CreateList
    | JoinSelect(u: User) | JoinLookup(u: User) | JoinLoad(u: User) | JoinCas(u: User, expected: int)
    | JoinRow(u: User) | JoinAdd(u: User)
    | LeaveLookup(u: User) | LeaveLock(u: User) | LeaveRow(u: User) | LeaveErase(u: User) | LeaveSub | LeaveTry
    | LeaveDelete | LeaveUnlist | LeaveUnlock

  datatype Choice =
    | BeginCreate(u: User)
    | BeginJoin(u: User)
    | BeginLeave(u: User)   // a disconnect, through the session's _room
    | BeginRoomOut(u: User) // a request, through the account's current_room_id and the room table
    | Advance

  datatype Move = Move(t: nat, c: Choice)

  datatype State = State(room: Room, threads: seq<Pc>)

  predicate Enabled(ro: Room, pc: Pc, c: Choice) {
    && !ro.crashed
    && match c
       case BeginCreate(_) => pc.Idle? && ro.stage.Unborn?
       case BeginJoin(_) => pc.Idle?
       case BeginLeave(_) => pc.Idle? && ro.stage.Shared?
       case BeginRoomOut(_) => pc.Idle? && !ro.stage.Unborn?
       case Advance => !pc.Idle? && (pc.JoinAdd? || pc.LeaveLock? ==> ro.lock.Nobody?)
  }

  function AddToRow(row: Row, n: int): Row { if row.Row? then Row(row.count + n) else row }

  function Act(ro: Room, t: nat, pc: Pc, c: Choice): (Room, Pc)
    requires Enabled(ro, pc, c)
  {
    match c
    case BeginCreate(u) => (ro.(row := Row(1), stage := HasRow), CreateBuild(u)) // user_count DEFAULT 1
    case BeginJoin(u) => (ro, JoinSelect(u))
    case BeginLeave(u) => (ro, LeaveLock(u))
    case BeginRoomOut(u) => (ro, LeaveLookup(u))
    case Advance =>
      match pc
      case CreateBuild(u) => (ro.(users := {u}, state := EMPTY, stage := Built), CreateCount)
      case CreateCount => (ro.(state := ro.state + 1, stage := Shared), CreateList) // then SetRoom
      case CreateList => (ro.(listed := true), Idle)
      case JoinSelect(u) => (ro, if ro.row.Row? then JoinLookup(u) else Idle)
      case JoinLookup(u) => (ro, if ro.listed then JoinLoad(u) else Idle)
      case JoinLoad(u) => (ro, if ro.state == DESTRUCTION then Idle else JoinCas(u, ro.state))
      case JoinCas(u, expected) =>
        if ro.state == expected then (ro.(state := ro.state + 1), JoinRow(u))
        else (ro, if ro.state == DESTRUCTION then Idle else JoinCas(u, ro.state))
      case JoinRow(u) => (ro.(row := AddToRow(ro.row, 1)), JoinAdd(u))
      case JoinAdd(u) =>
        if ro.users == {} || u in ro.users then (ro.(ghosts := ro.ghosts + 1), Idle)
        else (ro.(users := ro.users + {u}), Idle)
      case LeaveLookup(u) => if ro.listed then (ro, LeaveLock(u)) else (ro.(crashed := true), pc)
      case LeaveLock(u) => (ro.(lock := By(t)), LeaveRow(u))
      case LeaveRow(u) => (ro.(row := AddToRow(ro.row, -1)), LeaveErase(u))
      case LeaveErase(u) =>
        if u in ro.users then (ro.(users := ro.users - {u}), LeaveSub) else (ro.(crashed := true), pc)
      case LeaveSub => (ro.(state := ro.state - 1), LeaveTry)
      case LeaveTry =>
        if ro.state == EMPTY then (ro.(state := DESTRUCTION, destructions := ro.destructions + 1), LeaveDelete)
        else (ro, LeaveUnlock)
      case LeaveDelete =>
        (if ro.row.Row? && ro.row.count <= 0 then ro.(row := NoRow) else ro, LeaveUnlist)
      case LeaveUnlist =>
        if ro.listed then (ro.(listed := false, removals := ro.removals + 1), LeaveUnlock)
        else (ro.(crashed := true), pc)
      case LeaveUnlock => (ro.(lock := Nobody), Idle)
  }

  ghost predicate Step(s: State, m: Move, s': State) {
    && m.t < |s.threads| && Enabled(s.room, s.threads[m.t], m.c)
    && var (ro', pc') := Act(s.room, m.t, s.threads[m.t], m.c);
       s' == State(ro', s.threads[m.t := pc'])
  }

  ghost predicate Path(states: seq<State>, moves: seq<Move>) { Linked(Step, states, moves) }

  predicate Init(s: State) {
    && s.room == Room(EMPTY, {}, Nobody, NoRow, false, Unborn, false, 0, 0, 0)
    && forall t :: 0 <= t < |s.threads| ==> s.threads[t].Idle?
  }

  // ---------------------------------------------------------------- what is counted

  /** Won the CAS and has not yet tried to enter _users. */
  function Joining(pc: Pc): nat { if pc.JoinRow? || pc.JoinAdd? then 1 else 0 }

  /** Won the CAS and has not yet raised user_count. */
  function Uncounted(pc: Pc): nat { if pc.JoinRow? then 1 else 0 }

  /** Has lowered user_count and not yet roomState. */
  function Leaving(pc: Pc): nat { if pc.LeaveErase? || pc.LeaveSub? then 1 else 0 }

  /** Has left _users and not yet lowered roomState. */
  function Erased(pc: Pc): nat { if pc.LeaveSub? then 1 else 0 }

  function Creating(pc: Pc): nat { if pc.CreateBuild? || pc.CreateCount? || pc.CreateList? then 1 else 0 }

  predicate InLock(pc: Pc) {
    || pc.LeaveRow? || pc.LeaveErase? || pc.LeaveSub? || pc.LeaveTry? || pc.LeaveDelete?
    || pc.LeaveUnlist? || pc.LeaveUnlock?
  }

  /** The totals over all threads. */
  datatype Totals = Totals(joining: nat, uncounted: nat, leaving: nat, erased: nat, creating: nat)

  function Total(threads: seq<Pc>): Totals {
    Totals(Sum(threads, Joining), Sum(threads, Uncounted), Sum(threads, Leaving), Sum(threads, Erased),
           Sum(threads, Creating))
  }

  /** Not yet visible to anyone but its creator. */
  predicate PrivateOk(ro: Room, n: Totals) {
    && ro.state == EMPTY && !ro.listed && ro.lock.Nobody? && ro.ghosts == 0
    && n.joining == 0 && n.uncounted == 0 && n.leaving == 0 && n.erased == 0
    && ro.row == (if ro.stage.Unborn? then NoRow else Row(1))
    && (ro.stage.Built? ==> |ro.users| == 1)
    && (!ro.stage.Built? ==> ro.users == {})
    && (ro.stage.Unborn? ==> n.creating == 0)
  }

  /** roomState counts members, joins in flight, leaves not yet subtracted and ghost joins; and
      user_count is behind or ahead of it by exactly the joins and leaves caught between the two. */
  predicate OpenOk(ro: Room, n: Totals) {
    && ro.row.Row? && ro.removals == 0
    && ro.state == ro.row.count + n.uncounted + n.leaving
    && ro.state == |ro.users| + n.joining + n.erased + ro.ghosts
  }

  predicate ClosedOk(ro: Room, n: Totals) {
    && ro.users == {} && ro.ghosts == 0
    && n.joining == 0 && n.uncounted == 0 && n.erased == 0
    && (ro.row.NoRow? || ro.lock.By?)
  }

  predicate RoomOk(ro: Room, n: Totals) {
    && !(ro.state < DESTRUCTION)
    && ro.destructions == (if ro.state == DESTRUCTION then 1 else 0)
    && ro.removals <= ro.destructions
    && n.uncounted <= n.joining && n.erased <= n.leaving && n.creating <= 1
    && (if !ro.stage.Shared? then PrivateOk(ro, n)
        else if ro.state == DESTRUCTION then ClosedOk(ro, n)
        else OpenOk(ro, n))
  }

  /** One thread against the room. */
  predicate ThreadOk(ro: Room, t: nat, pc: Pc) {
    && (InLock(pc) <==> ro.lock == By(t))
    && (pc.CreateBuild? ==> ro.stage.HasRow?)
    && (pc.CreateCount? ==> ro.stage.Built?)
    && (pc.CreateList? ==> ro.stage.Shared? && !ro.listed && ro.removals == 0)
    && (pc.JoinLoad? || pc.JoinCas? || pc.LeaveLock? ==> ro.stage.Shared?)
    && (pc.JoinCas? ==> pc.expected != DESTRUCTION)
    && (pc.LeaveDelete? ==> ro.state == DESTRUCTION && ro.removals == 0 && ro.row == Row(0))
    && (pc.LeaveUnlist? ==> ro.state == DESTRUCTION && ro.removals == 0)
    && (pc.LeaveSub? || pc.LeaveTry? ==> ro.state != DESTRUCTION)
    && (InLock(pc) && !pc.LeaveDelete? && ro.state == DESTRUCTION ==> ro.row.NoRow?)
  }

  /** A room that anybody can reach and that is in the table neither now nor before is still with its
      creator. */
  predicate ListingOk(ro: Room, n: Totals) {
    ro.stage.Shared? && !ro.listed && ro.removals == 0 ==> n.creating == 1
  }

  ghost predicate Inv(s: State) {
    && RoomOk(s.room, Total(s.threads)) && ListingOk(s.room, Total(s.threads))
    && (s.room.listed ==> s.room.stage.Shared?)
    && forall t :: 0 <= t < |s.threads| ==> ThreadOk(s.room, t, s.threads[t])
  }

  lemma {:induction false} InitInv(s: State)
    requires Init(s)
    ensures Inv(s)
  {
    SumZero(s.threads, Joining);
    SumZero(s.threads, Uncounted);
    SumZero(s.threads, Leaving);
    SumZero(s.threads, Erased);
    SumZero(s.threads, Creating);
  }

  /** The totals once the thread at pc has moved to pc'. */
  predicate Moved(n: Totals, pc: Pc, pc': Pc, n': Totals) {
    && n'.joining == n.joining - Joining(pc) + Joining(pc')
    && n'.uncounted == n.uncounted - Uncounted(pc) + Uncounted(pc')
    && n'.leaving == n.leaving - Leaving(pc) + Leaving(pc')
    && n'.erased == n.erased - Erased(pc) + Erased(pc')
    && n'.creating == n.creating - Creating(pc) + Creating(pc')
  }

  predicate Within(n: Totals, pc: Pc) {
    && Joining(pc) <= n.joining && Uncounted(pc) <= n.uncounted && Creating(pc) <= n.creating
    && Leaving(pc) <= n.leaving && Erased(pc) <= n.erased
    && n.uncounted - Uncounted(pc) <= n.joining - Joining(pc)
    && n.erased - Erased(pc) <= n.leaving - Leaving(pc)
    && (InLock(pc) ==> n.leaving == Leaving(pc) && n.erased == Erased(pc))
  }

  lemma {:induction false} LeaveKept(ro: Room, t: nat, pc: Pc, c: Choice, n: Totals, n': Totals)
    requires Enabled(ro, pc, c) && RoomOk(ro, n) && ThreadOk(ro, t, pc) && Within(n, pc) && InLock(pc)
    requires Moved(n, pc, Act(ro, t, pc, c).1, n')
    ensures RoomOk(Act(ro, t, pc, c).0, n')
  {
  }

  lemma {:induction false} JoinKept(ro: Room, t: nat, pc: Pc, c: Choice, n: Totals, n': Totals)
    requires Enabled(ro, pc, c) && RoomOk(ro, n) && ThreadOk(ro, t, pc) && Within(n, pc) && !InLock(pc)
    requires Moved(n, pc, Act(ro, t, pc, c).1, n')
    ensures RoomOk(Act(ro, t, pc, c).0, n')
  {
  }

  lemma {:induction false} RoomKept(ro: Room, t: nat, pc: Pc, c: Choice, n: Totals, n': Totals)
    requires Enabled(ro, pc, c) && RoomOk(ro, n) && ThreadOk(ro, t, pc) && Within(n, pc)
    requires Moved(n, pc, Act(ro, t, pc, c).1, n')
    ensures RoomOk(Act(ro, t, pc, c).0, n')
  {
    if InLock(pc) { LeaveKept(ro, t, pc, c, n, n'); } else { JoinKept(ro, t, pc, c, n, n'); }
  }

  lemma {:induction false} ListingKept(ro: Room, t: nat, pc: Pc, c: Choice, n: Totals, n': Totals)
    requires Enabled(ro, pc, c) && ListingOk(ro, n) && Creating(pc) <= n.creating <= 1
    requires n'.creating == n.creating - Creating(pc) + Creating(Act(ro, t, pc, c).1)
    requires ro.stage.Unborn? ==> n.creating == 0
    ensures ListingOk(Act(ro, t, pc, c).0, n')
  {
  }

  lemma {:induction false} MoverKept(ro: Room, t: nat, pc: Pc, c: Choice, n: Totals)
    requires Enabled(ro, pc, c) && RoomOk(ro, n) && ThreadOk(ro, t, pc) && Within(n, pc)
    requires ro.listed ==> ro.stage.Shared?
    ensures var (ro', pc') := Act(ro, t, pc, c); ThreadOk(ro', t, pc') && (ro'.listed ==> ro'.stage.Shared?)
  {
  }

  lemma {:induction false} OtherKept(ro: Room, t: nat, pc: Pc, c: Choice, n: Totals, u: nat, other: Pc)
    requires Enabled(ro, pc, c) && RoomOk(ro, n) && ThreadOk(ro, t, pc) && Within(n, pc)
    requires t != u && ThreadOk(ro, u, other) && Creating(pc) + Creating(other) <= n.creating
    ensures ThreadOk(Act(ro, t, pc, c).0, u, other)
  {
  }

  lemma {:induction false} TotalsMove(threads: seq<Pc>, t: nat, pc': Pc)
    requires t < |threads|
    ensures Moved(Total(threads), threads[t], pc', Total(threads[t := pc']))
  {
    SumUpdate(threads, t, pc', Joining);
    SumUpdate(threads, t, pc', Uncounted);
    SumUpdate(threads, t, pc', Leaving);
    SumUpdate(threads, t, pc', Erased);
    SumUpdate(threads, t, pc', Creating);
  }

  /** The mover's share of the totals; whoever holds the lock is the only one leaving. */
  lemma {:induction false} Share(s: State, t: nat)
    requires t < |s.threads| && forall u :: 0 <= u < |s.threads| ==> ThreadOk(s.room, u, s.threads[u])
    ensures Within(Total(s.threads), s.threads[t])
  {
    var rest := s.threads[t := Idle];
    TotalsMove(s.threads, t, Idle);
    SumLe(rest, Uncounted, Joining);
    SumLe(rest, Erased, Leaving);
    if InLock(s.threads[t]) {
      SumZero(rest, Leaving);
    }
  }

  lemma {:induction false} CreatorsShare(threads: seq<Pc>, t: nat, u: nat)
    requires t < |threads| && u < |threads| && t != u
    ensures Creating(threads[t]) + Creating(threads[u]) <= Total(threads).creating
  {
    if t < u { SumPair(threads, t, u, Creating); } else { SumPair(threads, u, t, Creating); }
  }

  lemma {:induction false} Preserve(s: State, m: Move, s': State)
    requires Inv(s) && Step(s, m, s')
    ensures Inv(s')
  {
    var pc, pc' := s.threads[m.t], s'.threads[m.t];
    var n := Total(s.threads);
    Share(s, m.t);
    TotalsMove(s.threads, m.t, pc');
    RoomKept(s.room, m.t, pc, m.c, n, Total(s'.threads));
    ListingKept(s.room, m.t, pc, m.c, n, Total(s'.threads));
    MoverKept(s.room, m.t, pc, m.c, n);
    forall u | 0 <= u < |s.threads| && u != m.t
      ensures ThreadOk(s'.room, u, s'.threads[u])
    {
      CreatorsShare(s.threads, m.t, u);
      OtherKept(s.room, m.t, pc, m.c, n, u, s.threads[u]);
    }
  }

  lemma {:induction false} RunInv(states: seq<State>, moves: seq<Move>, i: nat)
    requires Path(states, moves) && Init(states[0]) && i < |states|
    ensures Inv(states[i])
  {
    if i == 0 {
      InitInv(states[0]);
    } else {
      RunInv(states, moves, i - 1);
      Preserve(states[i - 1], moves[i - 1], states[i]);
    }
  }

  // ---------------------------------------------------------------- membership

  /** A join adds nobody if and only if it reaches AddUser with _users empty or its user a member
      already. */
  lemma {:induction false} GhostsExactly(s: State, m: Move, s': State)
    requires Step(s, m, s')
    ensures var pc := s.threads[m.t];
            s'.room.ghosts == s.room.ghosts
              + (if m.c.Advance? && pc.JoinAdd? && (s.room.users == {} || pc.u in s.room.users) then 1 else 0)
  {
  }

  /** _users changes by its creation, by a join's AddUser on a room that is not empty, and by a leave
      of a member, in no other way; and by a join only while no leave is in progress. */
  lemma {:induction false} MembersExactly(s: State, m: Move, s': State)
    requires Step(s, m, s')
    ensures var pc, users := s.threads[m.t], s.room.users;
            s'.room.users ==
              if m.c.Advance? && pc.CreateBuild? then {pc.u}
              else if m.c.Advance? && pc.JoinAdd? && users != {} then users + {pc.u}
              else if m.c.Advance? && pc.LeaveErase? then users - {pc.u}
              else users
    ensures m.c.Advance? && s.threads[m.t].JoinAdd? ==> s.room.lock.Nobody?
  {
    var users := s.room.users;
    assert forall u :: u in users ==> users + {u} == users;
    assert forall u :: u !in users ==> users - {u} == users;
  }

  // ---------------------------------------------------------------- teardown

  /** This move is a CAS from Empty to Destruction that succeeds. */
  predicate Destroys(s: State, m: Move) {
    m.t < |s.threads| && m.c.Advance? && s.threads[m.t].LeaveTry? && s.room.state == EMPTY
  }

  /** This move is a join's CAS that succeeds. */
  predicate JoinWins(s: State, m: Move) {
    && m.t < |s.threads| && m.c.Advance? && s.threads[m.t].JoinCas?
    && s.room.state == s.threads[m.t].expected
  }

  /** No thread is between winning the CAS to join and entering _users. */
  predicate NobodyJoining(s: State) {
    forall t :: 0 <= t < |s.threads| ==> Joining(s.threads[t]) == 0
  }

  lemma {:induction false} NoJoinersMeansNone(s: State)
    ensures NobodyJoining(s) <==> Total(s.threads).joining == 0
  {
    if NobodyJoining(s) {
      SumZero(s.threads, Joining);
    } else {
      var t :| 0 <= t < |s.threads| && Joining(s.threads[t]) != 0;
      SumAtLeast(s.threads, t, Joining);
    }
  }

  /** A room is destroyed only when _users is empty and no join is in flight, and at that moment
      user_count is exactly 0, although it was changed by separate statements throughout. */
  lemma {:induction false} TeardownSafe(states: seq<State>, moves: seq<Move>, i: nat)
    requires Path(states, moves) && Init(states[0]) && i < |moves| && Destroys(states[i], moves[i])
    ensures states[i].room.users == {} && NobodyJoining(states[i]) && states[i].room.row == Row(0)
  {
    RunInv(states, moves, i);
    assert Step(states[i], moves[i], states[i + 1]);
    Share(states[i], moves[i].t);
    NoJoinersMeansNone(states[i]);
  }

  /** Once destroyed, in all the rest of the run: it stays so, nobody is a member, nobody wins a
      join, nothing destroys it again, and RemoveRoom has completed at most once. */
  lemma {:induction false} DestroyedForGood(states: seq<State>, moves: seq<Move>, i: nat, k: nat)
    requires Path(states, moves) && Init(states[0]) && i <= k < |states|
    requires states[i].room.state == DESTRUCTION
    ensures states[k].room.state == DESTRUCTION && states[k].room.users == {}
    ensures k < |moves| ==> !JoinWins(states[k], moves[k]) && !Destroys(states[k], moves[k])
    ensures states[k].room.destructions == 1 && states[k].room.removals <= 1
  {
    DestroyedLater(states, moves, i, k);
    RunInv(states, moves, k);
    ClosedToAll(states[k]);
  }

  lemma {:induction false} DestroyedLater(states: seq<State>, moves: seq<Move>, i: nat, k: nat)
    requires Path(states, moves) && Init(states[0]) && i <= k < |states|
    requires states[i].room.state == DESTRUCTION
    ensures states[k].room.state == DESTRUCTION
  {
    if i < k {
      DestroyedLater(states, moves, i, k - 1);
      RunInv(states, moves, k - 1);
      assert Step(states[k - 1], moves[k - 1], states[k]);
      StaysDestroyed(states[k - 1], moves[k - 1], states[k]);
    }
  }

  lemma {:induction false} ClosedToAll(s: State)
    requires Inv(s) && s.room.state == DESTRUCTION
    ensures s.room.users == {} && s.room.destructions == 1 && s.room.removals <= 1
    ensures forall m: Move :: !JoinWins(s, m) && !Destroys(s, m)
  {
  }

  lemma {:induction false} StaysDestroyed(s: State, m: Move, s': State)
    requires Inv(s) && Step(s, m, s') && s.room.state == DESTRUCTION
    ensures s'.room.state == DESTRUCTION
  {
  }

  /** The guarded DELETE of a teardown always removes the row. */
  lemma {:induction false} RowIsRemoved(states: seq<State>, moves: seq<Move>, i: nat)
    requires Path(states, moves) && Init(states[0]) && i < |moves|
    requires moves[i].t < |states[i].threads| && states[i].threads[moves[i].t].LeaveDelete? && moves[i].c.Advance?
    ensures states[i].room.row.Row? && states[i + 1].room.row.NoRow?
  {
    RunInv(states, moves, i);
    assert Step(states[i], moves[i], states[i + 1]);
    assert ThreadOk(states[i].room, moves[i].t, states[i].threads[moves[i].t]);
  }

  /** _users, once built and emptied, stays empty. */
  lemma {:induction false} EmptyForGood(states: seq<State>, moves: seq<Move>, i: nat, k: nat)
    requires Path(states, moves) && Init(states[0]) && i <= k < |states|
    requires states[i].room.stage.Shared? && states[i].room.users == {}
    ensures states[k].room.stage.Shared? && states[k].room.users == {}
  {
    if i < k {
      EmptyForGood(states, moves, i, k - 1);
      RunInv(states, moves, k - 1);
      assert Step(states[k - 1], moves[k - 1], states[k]);
      assert ThreadOk(states[k - 1].room, moves[k - 1].t, states[k - 1].threads[moves[k - 1].t]);
    }
  }

  // ---------------------------------------------------------------- when a leave destroys the room

  /** The leave that tries destroys the room exactly when no member is left, no join is in flight
      and no join ever added nobody. */
  lemma {:induction false} DestroysExactly(s: State, m: Move)
    requires Inv(s) && m.t < |s.threads| && m.c.Advance? && s.threads[m.t].LeaveTry?
    ensures Destroys(s, m) <==> s.room.users == {} && NobodyJoining(s) && s.room.ghosts == 0
  {
    assert ThreadOk(s.room, m.t, s.threads[m.t]);
    Share(s, m.t);
    NoJoinersMeansNone(s);
  }

  /** Empty, not destroyed, and with no leave left that could still try. */
  predicate Undead(s: State) {
    && s.room.stage.Shared? && s.room.users == {} && s.room.state > EMPTY
    && forall t :: 0 <= t < |s.threads| ==> !s.threads[t].LeaveSub? && !s.threads[t].LeaveTry?
  }

  /** If the last member's leave does not destroy the room, nothing ever will: its row stays in the
      database for the rest of the run, and joins go on being won that add nobody. */
  lemma {:induction false} NeverDestroyed(states: seq<State>, moves: seq<Move>, i: nat, k: nat)
    requires Path(states, moves) && Init(states[0]) && i < k < |states|
    requires moves[i].t < |states[i].threads| && states[i].threads[moves[i].t].LeaveTry? && moves[i].c.Advance?
    requires states[i].room.users == {} && !Destroys(states[i], moves[i])
    ensures Undead(states[k]) && states[k].room.row.Row?
    ensures k < |moves| ==> !Destroys(states[k], moves[k])
  {
    RunInv(states, moves, k - 1);
    if i + 1 < k {
      NeverDestroyed(states, moves, i, k - 1);
    }
    assert Step(states[k - 1], moves[k - 1], states[k]);
    UndeadKept(states[k - 1], moves[k - 1], states[k]);
    Preserve(states[k - 1], moves[k - 1], states[k]);
  }

  lemma {:induction false} UndeadKept(s: State, m: Move, s': State)
    requires Inv(s) && Step(s, m, s')
    requires Undead(s) || (m.c.Advance? && s.threads[m.t].LeaveTry? && s.room.users == {} && !Destroys(s, m))
    ensures Undead(s')
  {
  }

  // ---------------------------------------------------------------- when a leave crashes

  /** The creator has made the room reachable through its session and not yet put it in the table. */
  predicate BeingListed(s: State) { exists t :: 0 <= t < |s.threads| && s.threads[t].CreateList? }

  /** A step crashes if and only if somebody leaves who is not a member, or looks the room up in the
      table when it is not there, or takes it out before its creator has put it there. */
  lemma {:induction false} CrashesExactly(s: State, m: Move, s': State)
    requires Inv(s) && Step(s, m, s')
    ensures var pc := s.threads[m.t];
            s'.room.crashed <==>
              && m.c.Advance?
              && (|| (pc.LeaveErase? && pc.u !in s.room.users)
                  || (pc.LeaveLookup? && !s.room.listed)
                  || (pc.LeaveUnlist? && BeingListed(s)))
  {
    var pc := s.threads[m.t];
    assert ThreadOk(s.room, m.t, pc);
    if m.c.Advance? && pc.LeaveUnlist? {
      if BeingListed(s) {
        var t :| 0 <= t < |s.threads| && s.threads[t].CreateList?;
        assert ThreadOk(s.room, t, s.threads[t]);
      }
      if !s.room.listed {
        var t := SumWitness(s.threads, Creating);
        assert ThreadOk(s.room, t, s.threads[t]);
      }
    }
  }

  // ---------------------------------------------------------------- the undead room and the crash, concretely

  lemma {:induction false} Hop(states: seq<State>, moves: seq<Move>, m: Move, ro: Room, a: Pc, b: Pc,
                               ro': Room, pc': Pc)
    returns (states': seq<State>, moves': seq<Move>)
    requires Path(states, moves) && states[|states| - 1] == State(ro, [a, b]) && m.t < 2
    requires var pc := if m.t == 0 then a else b;
             Enabled(ro, pc, m.c) && Act(ro, m.t, pc, m.c) == (ro', pc')
    ensures Path(states', moves') && states'[0] == states[0]
    ensures states'[|states'| - 1] == State(ro', if m.t == 0 then [pc', b] else [a, pc'])
  {
    var s' := State(ro', if m.t == 0 then [pc', b] else [a, pc']);
    assert [a, b][m.t := pc'] == s'.threads;
    states', moves' := Extend(Step, states, moves, m, s');
  }

  const UNUSED := Room(EMPTY, {}, Nobody, NoRow, false, Unborn, false, 0, 0, 0)
  const ALONE := UNUSED.(state := 1, users := {1}, row := Row(1), listed := true, stage := Shared)

  /** The creator has shared the room with its session and goes no further. */
  lemma {:induction false} NotYetListed() returns (states: seq<State>, moves: seq<Move>)
    ensures Path(states, moves) && Init(states[0])
    ensures states[|states| - 1] == State(ALONE.(listed := false), [CreateList, Idle])
  {
    states, moves := [State(UNUSED, [Idle, Idle])], [];
    var r1 := UNUSED.(row := Row(1), stage := HasRow);
    states, moves := Hop(states, moves, Move(0, BeginCreate(1)), UNUSED, Idle, Idle, r1, CreateBuild(1));
    var r2 := r1.(users := {1}, state := EMPTY, stage := Built);
    states, moves := Hop(states, moves, Move(0, Advance), r1, CreateBuild(1), Idle, r2, CreateCount);
    states, moves := Hop(states, moves, Move(0, Advance), r2, CreateCount, Idle, ALONE.(listed := false), CreateList);
  }

  lemma {:induction false} OneMember() returns (states: seq<State>, moves: seq<Move>)
    ensures Path(states, moves) && Init(states[0])
    ensures states[|states| - 1] == State(ALONE, [Idle, Idle])
  {
    states, moves := NotYetListed();
    states, moves := Hop(states, moves, Move(0, Advance), ALONE.(listed := false), CreateList, Idle, ALONE, Idle);
  }

  lemma {:induction false} SecondWins() returns (states: seq<State>, moves: seq<Move>)
    ensures Path(states, moves) && Init(states[0])
    ensures states[|states| - 1] == State(ALONE.(state := 2), [Idle, JoinRow(2)])
  {
    states, moves := OneMember();
    states, moves := Hop(states, moves, Move(1, BeginJoin(2)), ALONE, Idle, Idle, ALONE, JoinSelect(2));
    states, moves := Hop(states, moves, Move(1, Advance), ALONE, Idle, JoinSelect(2), ALONE, JoinLookup(2));
    states, moves := Hop(states, moves, Move(1, Advance), ALONE, Idle, JoinLookup(2), ALONE, JoinLoad(2));
    states, moves := Hop(states, moves, Move(1, Advance), ALONE, Idle, JoinLoad(2), ALONE, JoinCas(2, 1));
    states, moves := Hop(states, moves, Move(1, Advance), ALONE, Idle, JoinCas(2, 1), ALONE.(state := 2), JoinRow(2));
  }

  lemma {:induction false} OnlyMemberErased() returns (states: seq<State>, moves: seq<Move>)
    ensures Path(states, moves) && Init(states[0])
    ensures states[|states| - 1]
      == State(ALONE.(state := 2, users := {}, lock := By(0), row := Row(0)), [LeaveSub, JoinRow(2)])
  {
    states, moves := SecondWins();
    var b := JoinRow(2);
    var r0 := ALONE.(state := 2);
    states, moves := Hop(states, moves, Move(0, BeginLeave(1)), r0, Idle, b, r0, LeaveLock(1));
    var r1 := r0.(lock := By(0));
    states, moves := Hop(states, moves, Move(0, Advance), r0, LeaveLock(1), b, r1, LeaveRow(1));
    var r2 := r1.(row := Row(0));
    states, moves := Hop(states, moves, Move(0, Advance), r1, LeaveRow(1), b, r2, LeaveErase(1));
    assert {1} - {1} == {};
    states, moves := Hop(states, moves, Move(0, Advance), r2, LeaveErase(1), b, r2.(users := {}), LeaveSub);
  }

  /** It happens: the only member leaves between a join's CAS and its AddUser.  The room is then
      empty and, by NeverDestroyed, is never destroyed. */
  lemma {:induction false} UndeadHappens() returns (states: seq<State>, moves: seq<Move>)
    ensures Path(states, moves) && Init(states[0]) && Undead(states[|states| - 1])
    ensures states[|states| - 1]
      == State(ALONE.(users := {}, lock := By(0), row := Row(0)), [LeaveUnlock, JoinRow(2)])
  {
    states, moves := OnlyMemberErased();
    var r0 := states[|states| - 1].room;
    var r1 := r0.(state := 1);
    states, moves := Hop(states, moves, Move(0, Advance), r0, LeaveSub, JoinRow(2), r1, LeaveTry);
    states, moves := Hop(states, moves, Move(0, Advance), r1, LeaveTry, JoinRow(2), r1, LeaveUnlock);
  }

  /** The join that added nobody finishes, and its user asks to leave. */
  lemma {:induction false} StrangerLeaves() returns (states: seq<State>, moves: seq<Move>)
    ensures Path(states, moves) && Init(states[0])
    ensures states[|states| - 1] == State(ALONE.(users := {}, row := Row(1), ghosts := 1), [Idle, LeaveLookup(2)])
  {
    states, moves := UndeadHappens();
    var r0 := ALONE.(users := {}, lock := By(0), row := Row(0));
    var b := JoinRow(2);
    var r1 := r0.(lock := Nobody);
    states, moves := Hop(states, moves, Move(0, Advance), r0, LeaveUnlock, b, r1, Idle);
    var r2 := r1.(row := Row(1));
    states, moves := Hop(states, moves, Move(1, Advance), r1, Idle, b, r2, JoinAdd(2));
    var r3 := r2.(ghosts := 1);
    states, moves := Hop(states, moves, Move(1, Advance), r2, Idle, JoinAdd(2), r3, Idle);
    states, moves := Hop(states, moves, Move(1, BeginRoomOut(2)), r3, Idle, Idle, r3, LeaveLookup(2));
  }

  /** The first kind of crash happens: the room finds that its user is not a member. */
  lemma {:induction false} StrangerCrashes() returns (states: seq<State>, moves: seq<Move>)
    ensures Path(states, moves) && Init(states[0]) && states[|states| - 1].room.crashed
    ensures states[|states| - 1].threads == [Idle, LeaveErase(2)]
  {
    states, moves := StrangerLeaves();
    var go := Move(1, Advance);
    var r0 := states[|states| - 1].room;
    states, moves := Hop(states, moves, go, r0, Idle, LeaveLookup(2), r0, LeaveLock(2));
    var r1 := r0.(lock := By(1));
    states, moves := Hop(states, moves, go, r0, Idle, LeaveLock(2), r1, LeaveRow(2));
    var r2 := r1.(row := Row(0));
    states, moves := Hop(states, moves, go, r1, Idle, LeaveRow(2), r2, LeaveErase(2));
    states, moves := Hop(states, moves, go, r2, Idle, LeaveErase(2), r2.(crashed := true), LeaveErase(2));
  }

  /** The second kind happens: the creator asks to leave before the room is in the table. */
  lemma {:induction false} LookupCrashes() returns (states: seq<State>, moves: seq<Move>)
    ensures Path(states, moves) && Init(states[0]) && states[|states| - 1].room.crashed
    ensures states[|states| - 1].threads == [CreateList, LeaveLookup(1)]
  {
    states, moves := NotYetListed();
    var r0 := ALONE.(listed := false);
    states, moves := Hop(states, moves, Move(1, BeginRoomOut(1)), r0, CreateList, Idle, r0, LeaveLookup(1));
    var leave := LeaveLookup(1);
    states, moves := Hop(states, moves, Move(1, Advance), r0, CreateList, leave, r0.(crashed := true), leave);
  }

  /** Its session leaves meanwhile, and is the last member. */
  lemma {:induction false} LeftUnlisted() returns (states: seq<State>, moves: seq<Move>)
    ensures Path(states, moves) && Init(states[0])
    ensures states[|states| - 1]
      == State(ALONE.(listed := false, state := EMPTY, users := {}, lock := By(1), row := Row(0)),
               [CreateList, LeaveTry])
  {
    states, moves := NotYetListed();
    var go := Move(1, Advance);
    var r0 := ALONE.(listed := false);
    states, moves := Hop(states, moves, Move(1, BeginLeave(1)), r0, CreateList, Idle, r0, LeaveLock(1));
    var r1 := r0.(lock := By(1));
    states, moves := Hop(states, moves, go, r0, CreateList, LeaveLock(1), r1, LeaveRow(1));
    var r2 := r1.(row := Row(0));
    states, moves := Hop(states, moves, go, r1, CreateList, LeaveRow(1), r2, LeaveErase(1));
    assert {1} - {1} == {};
    var r3 := r2.(users := {});
    states, moves := Hop(states, moves, go, r2, CreateList, LeaveErase(1), r3, LeaveSub);
    states, moves := Hop(states, moves, go, r3, CreateList, LeaveSub, r3.(state := EMPTY), LeaveTry);
  }

  /** The third kind happens: RemoveRoom finds nothing in the table. */
  lemma {:induction false} UnlistCrashes() returns (states: seq<State>, moves: seq<Move>)
    ensures Path(states, moves) && Init(states[0]) && states[|states| - 1].room.crashed
  {
    states, moves := LeftUnlisted();
    var go := Move(1, Advance);
    var r0 := states[|states| - 1].room;
    var r1 := r0.(state := DESTRUCTION, destructions := 1);
    states, moves := Hop(states, moves, go, r0, CreateList, LeaveTry, r1, LeaveDelete);
    var r2 := r1.(row := NoRow);
    states, moves := Hop(states, moves, go, r1, CreateList, LeaveDelete, r2, LeaveUnlist);
    states, moves := Hop(states, moves, go, r2, CreateList, LeaveUnlist, r2.(crashed := true), LeaveUnlist);
  }
}
