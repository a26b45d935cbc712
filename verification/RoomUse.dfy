/** What creating, joining and leaving a room do when nobody interferes. */
module RoomUse {
  import opened RoomLife
  import opened Runs

  /** The room, and thread t at pc. */
  function Put(s: State, t: nat, ro: Room, pc: Pc): State
    requires t < |s.threads|
  {
    State(ro, s.threads[t := pc])
  }

  lemma {:induction false} Go(states: seq<State>, moves: seq<Move>, s: State, t: nat, ro: Room, pc: Pc, c: Choice)
    returns (states': seq<State>, moves': seq<Move>)
    requires Path(states, moves) && t < |s.threads| && states[|states| - 1] == Put(s, t, ro, pc) && Enabled(ro, pc, c)
    ensures Path(states', moves') && states'[0] == states[0]
    ensures var (ro', pc') := Act(ro, t, pc, c); states'[|states'| - 1] == Put(s, t, ro', pc')
  {
    var (ro', pc') := Act(ro, t, pc, c);
    assert Put(s, t, ro, pc).threads[t := pc'] == s.threads[t := pc'];
    states', moves' := Extend(Step, states, moves, Move(t, c), Put(s, t, ro', pc'));
  }

  lemma {:induction false} Start(s: State, t: nat)
    requires t < |s.threads| && s.threads[t].Idle?
    ensures Put(s, t, s.room, Idle) == s
  {
    assert s.threads[t := Idle] == s.threads;
  }

  /** A room created alone: one member, counted once in roomState and in its row, and in the table. */
  lemma {:induction false} CreateAlone(states: seq<State>, moves: seq<Move>, s: State, t: nat, u: User)
    returns (states': seq<State>, moves': seq<Move>)
    requires Path(states, moves) && states[|states| - 1] == s && t < |s.threads| && s.threads[t].Idle?
    requires !s.room.crashed && s.room.stage.Unborn?
    ensures Path(states', moves') && states'[0] == states[0]
    ensures states'[|states'| - 1]
      == State(s.room.(users := {u}, state := 1, row := Row(1), stage := Shared, listed := true), s.threads)
  {
    Start(s, t);
    var r1 := s.room.(row := Row(1), stage := HasRow);
    states', moves' := Go(states, moves, s, t, s.room, Idle, BeginCreate(u));
    states', moves' := Go(states', moves', s, t, r1, CreateBuild(u), Advance);
    var r2 := r1.(users := {u}, state := EMPTY, stage := Built);
    states', moves' := Go(states', moves', s, t, r2, CreateCount, Advance);
    var r3 := r2.(state := 1, stage := Shared);
    states', moves' := Go(states', moves', s, t, r3, CreateList, Advance);
    assert s.threads[t := Idle] == s.threads;
  }

  /** The room after a join. */
  function JoinTo(ro: Room, u: User): Room {
    if ro.row.NoRow? || !ro.listed || ro.state == DESTRUCTION then ro
    else
      var counted := ro.(state := ro.state + 1, row := Row(ro.row.count + 1));
      if ro.users == {} || u in ro.users then counted.(ghosts := ro.ghosts + 1)
      else counted.(users := ro.users + {u})
  }

  /** A join alone: refused without a row or a listed room or after its destruction; else roomState and
      user_count go up by one, and the user becomes a member unless the room is empty. */
  lemma {:induction false} JoinAlone(states: seq<State>, moves: seq<Move>, s: State, t: nat, u: User)
    returns (states': seq<State>, moves': seq<Move>)
    requires Path(states, moves) && states[|states| - 1] == s && t < |s.threads| && s.threads[t].Idle?
    requires !s.room.crashed && s.room.lock.Nobody?
    ensures Path(states', moves') && states'[0] == states[0]
    ensures states'[|states'| - 1] == State(JoinTo(s.room, u), s.threads)
  {
    Start(s, t);
    var ro := s.room;
    states', moves' := Go(states, moves, s, t, ro, Idle, BeginJoin(u));
    states', moves' := Go(states', moves', s, t, ro, JoinSelect(u), Advance);
    if ro.row.Row? {
      states', moves' := Go(states', moves', s, t, ro, JoinLookup(u), Advance);
      if ro.listed {
        states', moves' := Go(states', moves', s, t, ro, JoinLoad(u), Advance);
        if ro.state != DESTRUCTION {
          states', moves' := Go(states', moves', s, t, ro, JoinCas(u, ro.state), Advance);
          var r1 := ro.(state := ro.state + 1);
          states', moves' := Go(states', moves', s, t, r1, JoinRow(u), Advance);
          var r2 := r1.(row := Row(ro.row.count + 1));
          states', moves' := Go(states', moves', s, t, r2, JoinAdd(u), Advance);
        }
      }
    }
    assert s.threads[t := Idle] == s.threads;
  }

  /** A join whose CAS finds another value than it loaded tries again with that value, and gives up only
      on Destruction. */
  lemma {:induction false} JoinRetries(states: seq<State>, moves: seq<Move>, s: State, t: nat, u: User, stale: int)
    returns (states': seq<State>, moves': seq<Move>)
    requires Path(states, moves) && t < |s.threads| && states[|states| - 1] == Put(s, t, s.room, JoinCas(u, stale))
    requires !s.room.crashed && s.room.state != stale
    ensures Path(states', moves') && states'[0] == states[0]
    ensures states'[|states'| - 1] ==
      if s.room.state == DESTRUCTION then Put(s, t, s.room, Idle)
      else Put(s, t, s.room.(state := s.room.state + 1), JoinRow(u))
  {
    states', moves' := Go(states, moves, s, t, s.room, JoinCas(u, stale), Advance);
    if s.room.state != DESTRUCTION {
      states', moves' := Go(states', moves', s, t, s.room, JoinCas(u, s.room.state), Advance);
    }
  }

  /** The room once a leave has tried to destroy it, and with what follows if that succeeds. */
  function Ended(ro: Room): Room {
    if ro.state != EMPTY then ro
    else
      ro.(state := DESTRUCTION, destructions := ro.destructions + 1, listed := false, removals := ro.removals + 1,
          row := if ro.row.Row? && ro.row.count <= 0 then NoRow else ro.row)
  }

  /** The room after a leave of a member. */
  function LeaveTo(ro: Room, u: User): Room {
    Ended(ro.(users := ro.users - {u}, state := ro.state - 1, row := AddToRow(ro.row, -1)))
  }

  lemma {:induction false} LeaveBegins(states: seq<State>, moves: seq<Move>, s: State, t: nat, u: User, viaTable: bool)
    returns (states': seq<State>, moves': seq<Move>)
    requires Path(states, moves) && states[|states| - 1] == s && t < |s.threads| && s.threads[t].Idle?
    requires !s.room.crashed && s.room.stage.Shared? && s.room.listed
    ensures Path(states', moves') && states'[0] == states[0]
    ensures states'[|states'| - 1] == Put(s, t, s.room, LeaveLock(u))
  {
    Start(s, t);
    if viaTable {
      states', moves' := Go(states, moves, s, t, s.room, Idle, BeginRoomOut(u));
      states', moves' := Go(states', moves', s, t, s.room, LeaveLookup(u), Advance);
    } else {
      states', moves' := Go(states, moves, s, t, s.room, Idle, BeginLeave(u));
    }
  }

  lemma {:induction false} LeaveErases(states: seq<State>, moves: seq<Move>, s: State, t: nat, ro: Room, u: User)
    returns (states': seq<State>, moves': seq<Move>)
    requires Path(states, moves) && t < |s.threads| && states[|states| - 1] == Put(s, t, ro, LeaveLock(u))
    requires !ro.crashed && ro.lock.Nobody? && u in ro.users
    ensures Path(states', moves') && states'[0] == states[0]
    ensures states'[|states'| - 1] == Put(s, t, ro.(lock := By(t), users := ro.users - {u}, state := ro.state - 1,
                                                    row := AddToRow(ro.row, -1)), LeaveTry)
  {
    states', moves' := Go(states, moves, s, t, ro, LeaveLock(u), Advance);
    var r1 := ro.(lock := By(t));
    states', moves' := Go(states', moves', s, t, r1, LeaveRow(u), Advance);
    var r2 := r1.(row := AddToRow(ro.row, -1));
    states', moves' := Go(states', moves', s, t, r2, LeaveErase(u), Advance);
    states', moves' := Go(states', moves', s, t, r2.(users := ro.users - {u}), LeaveSub, Advance);
  }

  lemma {:induction false} LeaveDestroys(states: seq<State>, moves: seq<Move>, s: State, t: nat, ro: Room)
    returns (states': seq<State>, moves': seq<Move>)
    requires Path(states, moves) && t < |s.threads| && states[|states| - 1] == Put(s, t, ro, LeaveTry)
    requires !ro.crashed && ro.listed && ro.state == EMPTY
    ensures Path(states', moves') && states'[0] == states[0]
    ensures states'[|states'| - 1] == Put(s, t, Ended(ro), LeaveUnlock)
  {
    states', moves' := Go(states, moves, s, t, ro, LeaveTry, Advance);
    var r1 := ro.(state := DESTRUCTION, destructions := ro.destructions + 1);
    states', moves' := Go(states', moves', s, t, r1, LeaveDelete, Advance);
    var r2 := if ro.row.Row? && ro.row.count <= 0 then r1.(row := NoRow) else r1;
    states', moves' := Go(states', moves', s, t, r2, LeaveUnlist, Advance);
  }

  /** A leave alone: exactly that member goes, roomState and user_count go down by one, and at 0 the
      room is destroyed, deleted and taken out of the table. */
  lemma {:induction false} LeaveAlone(states: seq<State>, moves: seq<Move>, s: State, t: nat, u: User, viaTable: bool)
    returns (states': seq<State>, moves': seq<Move>)
    requires Path(states, moves) && states[|states| - 1] == s && t < |s.threads| && s.threads[t].Idle?
    requires !s.room.crashed && s.room.lock.Nobody? && s.room.stage.Shared? && s.room.listed && u in s.room.users
    ensures Path(states', moves') && states'[0] == states[0]
    ensures states'[|states'| - 1] == State(LeaveTo(s.room, u), s.threads)
  {
    var ro := s.room;
    states', moves' := LeaveBegins(states, moves, s, t, u, viaTable);
    states', moves' := LeaveErases(states', moves', s, t, ro, u);
    var r1 := ro.(lock := By(t), users := ro.users - {u}, state := ro.state - 1, row := AddToRow(ro.row, -1));
    if r1.state == EMPTY {
      states', moves' := LeaveDestroys(states', moves', s, t, r1);
    } else {
      states', moves' := Go(states', moves', s, t, r1, LeaveTry, Advance);
    }
    states', moves' := Go(states', moves', s, t, Ended(r1), LeaveUnlock, Advance);
    assert s.threads[t := Idle] == s.threads;
  }

  /** A user who joins alone a room of others and leaves it alone again leaves it as it was. */
  lemma {:induction false} JoinThenLeave(ro: Room, u: User)
    requires ro.row.Row? && ro.listed && ro.state > EMPTY && ro.users != {} && u !in ro.users
    ensures LeaveTo(JoinTo(ro, u), u) == ro
    ensures |JoinTo(ro, u).users| == |ro.users| + 1
  {
    assert ro.users + {u} - {u} == ro.users;
  }
}
