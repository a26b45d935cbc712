/** What Send, a send's completion and Room::BroadCast do when nobody interferes. */
module Sending {
  import opened Messaging
  import opened Runs

  /** The state with session q and thread t's place in the session's code replaced. */
  function Put(s: State, t: nat, q: nat, se: Session, pc: Pc): State
    requires t < |s.threads| && q < |s.sessions|
  {
    s.(sessions := s.sessions[q := se], threads := s.threads[t := s.threads[t].(pc := pc)])
  }

  /** A thread that is in no broadcast, or in one whose targets exist. */
  predicate Fits(s: State, t: nat) {
    && t < |s.threads|
    && var c := s.threads[t].cast;
       c.Casting? ==>
         && c.room < |s.rooms| && c.started <= |c.targets|
         && forall i :: 0 <= i < |c.targets| ==> c.targets[i] < |s.sessions|
  }

  /** One operation of thread t inside the code of session q. */
  lemma {:induction false} Go(states: seq<State>, moves: seq<Move>, s: State, t: nat, q: nat, se: Session, pc: Pc,
                              posted: bool, reset: bool)
    returns (states': seq<State>, moves': seq<Move>)
    requires Path(states, moves) && Fits(s, t) && q < |s.sessions| && states[|states| - 1] == Put(s, t, q, se, pc)
    requires !pc.Idle? && pc.s == q && SessionEnabled(se, pc)
    ensures Path(states', moves') && states'[0] == states[0]
    ensures var (se', pc') := SessionAct(se, t, pc, posted, reset);
            states'[|states'| - 1] == Put(s, t, q, se', pc')
  {
    var last := Put(s, t, q, se, pc);
    var (se', pc') := SessionAct(se, t, pc, posted, reset);
    var next := Put(s, t, q, se', pc');
    assert last.sessions[q := se'] == next.sessions && last.threads[t := next.threads[t]] == next.threads;
    states', moves' := Extend(Step, states, moves, Move(t, Advance(posted, reset)), next);
  }

  /** Nobody is in the middle of the session's code: its lock is free, and so is its send event unless
      a send is registered. */
  predicate Calm(se: Session) { se.lock.Nobody? && (!se.registered ==> se.event == [] && se.hand == []) }

  /** The session after all that is queued has been given to WSASend, and accepted or refused. */
  function Flushed(se: Session, posted: bool, reset: bool): Session {
    if posted then
      se.(queue := [], event := se.queue, hand := [], registered := true, inFlight := se.inFlight + 1,
          right := InFlight, taken := se.taken + [Batch(se.queue, true)])
    else
      se.(queue := [], event := [], hand := [], registered := false, right := Free,
          connected := se.connected && !reset, disturbed := true, taken := se.taken + [Batch(se.queue, false)])
  }

  /** The session after a Send. */
  function SendTo(se: Session, b: Buffer, posted: bool, reset: bool): Session {
    if !se.connected then se
    else
      var stored := se.(queue := se.queue + [b], enqueued := se.enqueued + [b]);
      if se.registered then stored else Flushed(stored, posted, reset)
  }

  /** RegisterSend, from its check on, drains the queue and posts it as one batch. */
  lemma {:induction false} RegisterAlone(states: seq<State>, moves: seq<Move>, s: State, t: nat, q: nat, se: Session,
                                         locked: bool, posted: bool, reset: bool)
    returns (states': seq<State>, moves': seq<Move>)
    requires Path(states, moves) && Fits(s, t) && q < |s.sessions|
    requires states[|states| - 1] == Put(s, t, q, se, RegCheck(q, locked))
    requires se.connected && se.registered && se.event == [] && (if locked then se.lock == By(t) else se.lock.Nobody?)
    ensures Path(states', moves') && states'[0] == states[0]
    ensures states'[|states'| - 1] == Put(s, t, q, Flushed(se, posted, reset).(lock := Nobody), Idle)
  {
    states', moves' := Go(states, moves, s, t, q, se, RegCheck(q, locked), posted, reset);
    states', moves' := Go(states', moves', s, t, q, se, RegDrain(q, locked), posted, reset);
    assert [] + se.queue == se.queue;
    var e1 := se.(event := se.queue, hand := se.queue, queue := []);
    states', moves' := Go(states', moves', s, t, q, e1, RegPost(q, locked), posted, reset);
    if !posted {
      var e2 := e1.(disturbed := true);
      states', moves' := Go(states', moves', s, t, q, e2, RegFail(q, locked, reset), posted, reset);
      var e3 := if reset then e2.(connected := false) else e2;
      states', moves' := Go(states', moves', s, t, q, e3, RegClear(q, locked), posted, reset);
    }
  }

  /** A Send alone: nothing to a disconnected session; one more in the queue while a send is registered;
      and else the whole queue with it goes to WSASend at once. */
  lemma {:induction false} SendAlone(states: seq<State>, moves: seq<Move>, s: State, t: nat, q: nat, b: Buffer,
                                     posted: bool, reset: bool)
    returns (states': seq<State>, moves': seq<Move>)
    requires Path(states, moves) && Fits(s, t) && q < |s.sessions| && Calm(s.sessions[q])
    requires states[|states| - 1] == Put(s, t, q, s.sessions[q], SendCheck(q, b))
    ensures Path(states', moves') && states'[0] == states[0]
    ensures states'[|states'| - 1] == Put(s, t, q, SendTo(s.sessions[q], b, posted, reset), Idle)
  {
    var se := s.sessions[q];
    states', moves' := Go(states, moves, s, t, q, se, SendCheck(q, b), posted, reset);
    if se.connected {
      states', moves' := Go(states', moves', s, t, q, se, SendLock(q, b), posted, reset);
      var e1 := se.(lock := By(t), queue := se.queue + [b], enqueued := se.enqueued + [b]);
      states', moves' := Go(states', moves', s, t, q, e1, SendExchange(q), posted, reset);
      if !se.registered {
        var e2 := e1.(lock := Nobody, registered := true, right := HeldBy(t));
        states', moves' := RegisterAlone(states', moves', s, t, q, e2, false, posted, reset);
      }
    }
  }

  /** So a Send to an idle connected session whose WSASend is accepted leaves one send outstanding and
      an empty queue, and what has been sent is longer by the queue and exactly that buffer. */
  lemma {:induction false} SendSends(se: Session, b: Buffer)
    requires se.connected && !se.registered
    ensures var se' := SendTo(se, b, true, false);
            && se'.inFlight == se.inFlight + 1 && se'.queue == [] && se'.registered
            && Sent(se'.taken) == Sent(se.taken) + se.queue + [b]
  {
    BatchAppended(se.taken, Batch(se.queue + [b], true));
  }

  /** The session after the completion of its send. */
  function DoneTo(se: Session, zero: bool, posted: bool, reset: bool): Session
    requires se.inFlight > 0
  {
    var e := se.(inFlight := se.inFlight - 1, event := []);
    if zero then e.(connected := false, right := Abandoned, disturbed := true)
    else if se.queue == [] then e.(registered := false, right := Free)
    else if !se.connected then e.(right := Abandoned)
    else Flushed(e, posted, reset)
  }

  /** A completion alone: of 0 bytes, it disconnects; with nothing queued, it frees the flag; and else
      it posts the whole queue as the next batch. */
  lemma {:induction false} CompletionAlone(states: seq<State>, moves: seq<Move>, s: State, t: nat, q: nat, zero: bool,
                                           posted: bool, reset: bool)
    returns (states': seq<State>, moves': seq<Move>)
    requires Path(states, moves) && states[|states| - 1] == s && t < |s.threads| && q < |s.sessions|
    requires s.threads[t] == Thread(Idle, NotCasting) && s.sessions[q].lock.Nobody? && s.sessions[q].registered
    requires s.sessions[q].inFlight > 0
    ensures Path(states', moves') && states'[0] == states[0]
    ensures states'[|states'| - 1] == Put(s, t, q, DoneTo(s.sessions[q], zero, posted, reset), Idle)
  {
    var se := s.sessions[q];
    var e := Completed(se, t, zero);
    var pc := if zero then ZeroBytes(q) else DoneLock(q);
    states', moves' := Extend(Step, states, moves, Move(t, Complete(q, zero)), Put(s, t, q, e, pc));
    states', moves' := Go(states', moves', s, t, q, e, pc, posted, reset);
    if !zero && se.queue != [] {
      var e1 := e.(lock := By(t));
      if se.connected {
        states', moves' := RegisterAlone(states', moves', s, t, q, e1, true, posted, reset);
      } else {
        states', moves' := Go(states', moves', s, t, q, e1, RegCheck(q, true), posted, reset);
      }
    }
  }

  /** A disconnect can come at any time; it cuts the connection and leaves the queue as it is. */
  lemma {:induction false} DisconnectAlone(states: seq<State>, moves: seq<Move>, s: State, t: nat, q: nat)
    returns (states': seq<State>, moves': seq<Move>)
    requires Path(states, moves) && states[|states| - 1] == s && Fits(s, t) && q < |s.sessions|
    requires s.threads[t].pc.Idle?
    ensures Path(states', moves') && states'[0] == states[0]
    ensures states'[|states'| - 1]
      == s.(sessions := s.sessions[q := s.sessions[q].(connected := false, disturbed := true)])
  {
    var s' := s.(sessions := s.sessions[q := s.sessions[q].(connected := false, disturbed := true)]);
    states', moves' := Extend(Step, states, moves, Move(t, Disconnect(q)), s');
  }

  /** A room's members can change whenever no broadcast has its lock. */
  lemma {:induction false} MembersChange(states: seq<State>, moves: seq<Move>, s: State, t: nat, r: nat,
                                         users: seq<nat>)
    returns (states': seq<State>, moves': seq<Move>)
    requires Path(states, moves) && states[|states| - 1] == s && Fits(s, t) && s.threads[t].pc.Idle?
    requires r < |s.rooms| && s.rooms[r].lock.Nobody?
    ensures Path(states', moves') && states'[0] == states[0]
    ensures states'[|states'| - 1] == s.(rooms := s.rooms[r := s.rooms[r].(users := users)])
  {
    var s' := s.(rooms := s.rooms[r := s.rooms[r].(users := users)]);
    states', moves' := Extend(Step, states, moves, Move(t, SetUsers(r, users)), s');
  }

  // ---------------------------------------------------------------- a broadcast

  /** The sessions after one Send to each target in turn, every WSASend accepted. */
  function SendEach(sessions: seq<Session>, targets: seq<nat>, b: Buffer): (after: seq<Session>)
    requires forall i :: 0 <= i < |targets| ==> targets[i] < |sessions|
    ensures |after| == |sessions|
    decreases |targets|
  {
    if targets == [] then sessions
    else
      var q := targets[0];
      SendEach(sessions[q := SendTo(sessions[q], b, true, false)], targets[1..], b)
  }

  predicate AllCalm(sessions: seq<Session>) { forall q :: 0 <= q < |sessions| ==> Calm(sessions[q]) }

  lemma {:induction false} CastOn(states: seq<State>, moves: seq<Move>, s: State, t: nat)
    returns (states': seq<State>, moves': seq<Move>)
    requires Path(states, moves) && states[|states| - 1] == s && Fits(s, t) && AllCalm(s.sessions)
    requires s.threads[t].pc.Idle? && s.threads[t].cast.Casting?
    ensures Path(states', moves') && states'[0] == states[0]
    ensures var c := s.threads[t].cast;
            states'[|states'| - 1]
            == s.(sessions := SendEach(s.sessions, c.targets[c.started..], Cast(c.room, c.number)),
                  threads := s.threads[t := Thread(Idle, c.(started := |c.targets|))])
    decreases |s.threads[t].cast.targets| - s.threads[t].cast.started
  {
    var c := s.threads[t].cast;
    states', moves' := states, moves;
    if c.started == |c.targets| {
      assert s.threads[t := Thread(Idle, c)] == s.threads;
    } else {
      var q, b, c1 := c.targets[c.started], Cast(c.room, c.number), c.(started := c.started + 1);
      var s1 := s.(threads := s.threads[t := Thread(Idle, c1)]);
      var sending := Put(s1, t, q, s.sessions[q], SendCheck(q, b));
      assert sending.sessions == s.sessions && sending.threads == s.threads[t := Thread(SendCheck(q, b), c1)];
      states', moves' := Extend(Step, states, moves, Move(t, NextTarget), sending);
      states', moves' := SendAlone(states', moves', s1, t, q, b, true, false);
      var s2 := s1.(sessions := s.sessions[q := SendTo(s.sessions[q], b, true, false)]);
      assert s1.threads[t := s1.threads[t].(pc := Idle)] == s1.threads;
      states', moves' := CastOn(states', moves', s2, t);
      assert c.targets[c.started..][1..] == c.targets[c.started + 1..];
      var done := Thread(Idle, c.(started := |c.targets|));
      assert s2.threads[t := done] == s.threads[t := done];
    }
  }

  /** A broadcast alone: one Send of the next number to every member that is not excluded, in map order. */
  lemma {:induction false} BroadcastAlone(states: seq<State>, moves: seq<Move>, s: State, t: nat, r: nat,
                                          except: seq<nat>)
    returns (states': seq<State>, moves': seq<Move>)
    requires Path(states, moves) && states[|states| - 1] == s && t < |s.threads| && r < |s.rooms| && AllCalm(s.sessions)
    requires s.threads[t] == Thread(Idle, NotCasting) && s.rooms[r].lock.Nobody?
    requires forall i :: 0 <= i < |s.rooms[r].users| ==> s.rooms[r].users[i] < |s.sessions|
    ensures forall i :: 0 <= i < |Targets(s.rooms[r].users, except)| ==>
              Targets(s.rooms[r].users, except)[i] < |s.sessions|
    ensures Path(states', moves') && states'[0] == states[0]
    ensures var ro := s.rooms[r];
            states'[|states'| - 1]
            == s.(sessions := SendEach(s.sessions, Targets(ro.users, except), Cast(r, ro.next)),
                  rooms := s.rooms[r := ro.(next := ro.next + 1)])
  {
    var ro := s.rooms[r];
    var targets := Targets(ro.users, except);
    TargetsFrom(ro.users, except);
    forall i | 0 <= i < |targets| ensures targets[i] < |s.sessions| { assert targets[i] in ro.users; }
    var c := Casting(r, ro.next, except, targets, 0);
    var s1 := s.(rooms := s.rooms[r := ro.(lock := By(t), next := ro.next + 1)],
                 threads := s.threads[t := Thread(Idle, c)]);
    states', moves' := Extend(Step, states, moves, Move(t, BeginCast(r, except)), s1);
    states', moves' := CastOn(states', moves', s1, t);
    assert targets[0..] == targets;
    var s2 := s.(sessions := SendEach(s.sessions, targets, Cast(r, ro.next)),
                 rooms := s.rooms[r := ro.(next := ro.next + 1)]);
    assert s1.threads[t := Thread(Idle, c.(started := |targets|))][t := Thread(Idle, NotCasting)] == s.threads;
    assert s1.rooms[r := s1.rooms[r].(lock := Nobody)] == s2.rooms;
    states', moves' := Extend(Step, states', moves', Move(t, EndCast), s2);
  }
}
