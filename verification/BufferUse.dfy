/** What opening, closing and releasing a send buffer do when nobody interferes. */
module BufferUse {
  import opened Framing
  import opened Runs
  import opened SendBuffers

  lemma {:induction false} Go(states: seq<State>, moves: seq<Move>, s: State, t: nat)
    returns (states': seq<State>, moves': seq<Move>)
    requires Path(states, moves) && states[|states| - 1] == s && Enabled(s, Move.Move(t, Advance))
    ensures Path(states', moves') && states'[0] == states[0] && states'[|states'| - 1] == AdvanceOpen(s, t)
  {
    states', moves' := Extend(Step, states, moves, Move.Move(t, Advance), AdvanceOpen(s, t));
  }

  /** The chunk that Pop hands out: the last of the pool, or a new one. */
  function Fetched(s: State): nat { if s.pool == [] then |s.chunks| else s.pool[|s.pool| - 1] }

  /** The pool once that chunk is gone and the thread's old one, if only the thread had it, is back. */
  ghost function PoolAfter(s: State, slot: Slot): seq<nat> {
    (if s.pool == [] then [] else s.pool[..|s.pool| - 1])
    + (if slot.Has? && !LiveIn(s, slot.c) then [slot.c] else [])
  }

  /** Thread t has a fresh chunk in its slot and stands at pc; nothing else has changed. */
  ghost predicate Refilled(s: State, s': State, t: nat, pc: Pc) {
    var c := Fetched(s);
    && t < |s.threads| == |s'.threads|
    && s'.threads[t] == Thread(Has(c), NoChunk, NoChunk, pc)
    && (forall u :: 0 <= u < |s.threads| && u != t ==> s'.threads[u] == s.threads[u])
    && c < |s'.chunks| == |s.chunks| + (if s.pool == [] then 1 else 0)
    && !s'.chunks[c].open && s'.chunks[c].used == 0
    && (forall d :: 0 <= d < |s.chunks| && d != c ==> s'.chunks[d] == s.chunks[d])
    && s'.buffers == s.buffers && !s'.crashed
    && s'.pool == PoolAfter(s, s.threads[t].slot)
  }

  /** Only thread t differs, and it is as given. */
  predicate Only(s: State, s': State, t: nat, th: Thread) {
    && t < |s.threads| == |s'.threads| && s'.threads[t] == th
    && (forall u :: 0 <= u < |s.threads| && u != t ==> s'.threads[u] == s.threads[u])
    && s'.buffers == s.buffers && s'.crashed == s.crashed
  }

  lemma {:induction false} Pops(states: seq<State>, moves: seq<Move>, s: State, t: nat, size: nat, again: bool)
    returns (states': seq<State>, moves': seq<Move>, s': State)
    requires Path(states, moves) && states[|states| - 1] == s && Inv(s) && !s.crashed
    requires t < |s.threads| && s.threads[t].pc == Pop(size, again)
    ensures Path(states', moves') && states'[0] == states[0] && states'[|states'| - 1] == s' && Placed(s')
    ensures Only(s, s', t, Thread(s.threads[t].slot, Has(Fetched(s)), NoChunk, Assign(size, again)))
    ensures s'.pool == (if s.pool == [] then [] else s.pool[..|s.pool| - 1])
    ensures s'.chunks == (if s.pool == [] then s.chunks + [Blank()] else s.chunks)
    ensures Fetched(s) < |s'.chunks|
  {
    assert HandsOk(s, t);
    states', moves' := Go(states, moves, s, t);
    s' := AdvanceOpen(s, t);
    PlacedKept(s, Move.Move(t, Advance), s');
  }

  lemma {:induction false} Assigns(states: seq<State>, moves: seq<Move>, s: State, t: nat, size: nat, again: bool)
    returns (states': seq<State>, moves': seq<Move>, s': State)
    requires Path(states, moves) && states[|states| - 1] == s && Placed(s) && !s.crashed
    requires t < |s.threads| && s.threads[t].pc == Assign(size, again)
    ensures Path(states', moves') && states'[0] == states[0] && states'[|states'| - 1] == s'
    ensures s'.pool == s.pool && s'.chunks == s.chunks
    ensures var th := s.threads[t];
            if th.slot.Has? && !LiveIn(s, th.slot.c)
            then Only(s, s', t, Thread(th.hand, NoChunk, th.slot, PushOld(size, again)))
            else Only(s, s', t, Thread(th.hand, NoChunk, NoChunk, Reset(size, again)))
  {
    var th := s.threads[t];
    assert HandsOk(s, t);
    if th.slot.Has? {
      var s1 := s.Move(th.hand.c, InSlot(t)).Put(t, th.(slot := th.hand, hand := NoChunk));
      OnlyBuffersRefer(s, s1, t, th.slot.c);
    }
    states', moves' := Go(states, moves, s, t);
    s' := AdvanceOpen(s, t);
  }

  lemma {:induction false} GivesBack(states: seq<State>, moves: seq<Move>, s: State, t: nat, d: nat, size: nat,
                                     again: bool)
    returns (states': seq<State>, moves': seq<Move>, s': State)
    requires Path(states, moves) && states[|states| - 1] == s && !s.crashed
    requires t < |s.threads| && s.threads[t].pc == PushOld(size, again) && s.threads[t].dying == Has(d)
    ensures Path(states', moves') && states'[0] == states[0] && states'[|states'| - 1] == s'
    ensures Only(s, s', t, s.threads[t].(dying := NoChunk, pc := Reset(size, again)))
    ensures s'.pool == s.pool + [d] && s'.chunks == s.chunks
  {
    states', moves' := Go(states, moves, s, t);
    s' := AdvanceOpen(s, t);
  }

  lemma {:induction false} Resets(s: State, t: nat, c: nat, size: nat, again: bool)
    requires t < |s.threads| && s.threads[t].pc == Reset(size, again) && s.threads[t].slot == Has(c) && c < |s.chunks|
    ensures var s' := AdvanceOpen(s, t);
            && Only(s, s', t, s.threads[t].(pc := if again then Carve(size) else Check(size)))
            && s'.pool == s.pool && s'.chunks == s.chunks[c := s.chunks[c].(open := false, used := 0)]
  {
  }

  /** The thread is about to reset the chunk it has been given; the old one is where it belongs. */
  lemma {:induction false} Exchanges(states: seq<State>, moves: seq<Move>, s: State, t: nat, size: nat, again: bool)
    returns (states': seq<State>, moves': seq<Move>)
    requires Path(states, moves) && states[|states| - 1] == s && Inv(s) && !s.crashed
    requires t < |s.threads| && s.threads[t].pc == Pop(size, again)
    ensures Path(states', moves') && states'[0] == states[0]
    ensures var s', c := states'[|states'| - 1], Fetched(s);
            && Only(s, s', t, Thread(Has(c), NoChunk, NoChunk, Reset(size, again))) && c < |s'.chunks|
            && s'.pool == PoolAfter(s, s.threads[t].slot)
            && s'.chunks == (if s.pool == [] then s.chunks + [Blank()] else s.chunks)
  {
    var slot := s.threads[t].slot;
    var s1, s2;
    states', moves', s1 := Pops(states, moves, s, t, size, again);
    if slot.Has? { SameLive(s, s1, slot.c); }
    states', moves', s2 := Assigns(states', moves', s1, t, size, again);
    if slot.Has? && !LiveIn(s, slot.c) {
      states', moves', s2 := GivesBack(states', moves', s2, t, slot.c, size, again);
    }
  }

  /** From Pop on, the thread gets a chunk, empties it, and gives back the one it had if nobody else
      refers to it. */
  lemma {:induction false} Refills(states: seq<State>, moves: seq<Move>, s: State, t: nat, size: nat, again: bool)
    returns (states': seq<State>, moves': seq<Move>)
    requires Path(states, moves) && states[|states| - 1] == s && Inv(s) && !s.crashed
    requires t < |s.threads| && s.threads[t].pc == Pop(size, again)
    ensures Path(states', moves') && states'[0] == states[0]
    ensures Refilled(s, states'[|states'| - 1], t, if again then Carve(size) else Check(size))
  {
    states', moves' := Exchanges(states, moves, s, t, size, again);
    var s1 := states'[|states'| - 1];
    Resets(s1, t, Fetched(s), size, again);
    states', moves' := Go(states', moves', s1, t);
  }

  lemma {:induction false} SameLive(s: State, s': State, c: nat)
    requires s'.buffers == s.buffers
    ensures LiveIn(s, c) <==> LiveIn(s', c)
  {
  }

  /** Opening carves the buffer out of the thread's chunk at its fill mark. */
  lemma {:induction false} Carves(states: seq<State>, moves: seq<Move>, s: State, t: nat, c: nat, size: nat)
    returns (states': seq<State>, moves': seq<Move>)
    requires Path(states, moves) && states[|states| - 1] == s && !s.crashed && t < |s.threads|
    requires s.threads[t].slot == Has(c) && s.threads[t].pc == Carve(size) && c < |s.chunks|
    requires TryOpen(s.chunks[c], size).Opened?
    ensures Path(states', moves') && states'[0] == states[0]
    ensures states'[|states'| - 1]
      == s.(chunks := s.chunks[c := s.chunks[c].(open := true)],
            buffers := s.buffers + [Buffer(c, s.chunks[c].used, size, 0, false, true, [])],
            threads := s.threads[t := s.threads[t].(pc := Writing(|s.buffers|))])
  {
    states', moves' := Go(states, moves, s, t);
  }

  /** The new buffer is the last, in thread t's chunk c, from offset on. */
  predicate OpenedAt(s: State, s': State, t: nat, c: nat, offset: nat, size: nat) {
    && t < |s'.threads| && s'.threads[t] == Thread(Has(c), NoChunk, NoChunk, Writing(|s.buffers|)) && !s'.crashed
    && s'.buffers == s.buffers + [Buffer(c, offset, size, 0, false, true, [])]
    && c < |s'.chunks| && s'.chunks[c].open && s'.chunks[c].used == offset
  }

  /** Open alone, with room in the thread's chunk: the buffer begins at the chunk's fill mark. */
  lemma {:induction false} OpenHere(states: seq<State>, moves: seq<Move>, s: State, t: nat, c: nat, size: nat)
    returns (states': seq<State>, moves': seq<Move>)
    requires Path(states, moves) && states[|states| - 1] == s && Inv(s) && !s.crashed
    requires t < |s.threads| && s.threads[t].pc.Idle? && s.threads[t].slot == Has(c) && size <= CHUNK_SIZE
    requires c < |s.chunks| && size <= FreeSize(s.chunks[c])
    ensures Path(states', moves') && states'[0] == states[0]
    ensures var s' := states'[|states'| - 1];
            OpenedAt(s, s', t, c, s.chunks[c].used, size) && s'.pool == s.pool && |s'.chunks| == |s.chunks|
  {
    SlotClosed(s, t);
    assert HandsOk(s, t);
    var s1 := s.Put(t, s.threads[t].(pc := Start(size)));
    states', moves' := Extend(Step, states, moves, Move.Move(t, BeginOpen(size)), s1);
    states', moves' := Go(states', moves', s1, t);
    var s2 := AdvanceOpen(s1, t);
    states', moves' := Go(states', moves', s2, t);
    var s3 := AdvanceOpen(s2, t);
    states', moves' := Carves(states', moves', s3, t, c, size);
  }

  /** Open alone, without a chunk: the buffer begins a chunk from the pool, or a new one if there is
      none. */
  lemma {:induction false} OpenFirst(states: seq<State>, moves: seq<Move>, s: State, t: nat, size: nat)
    returns (states': seq<State>, moves': seq<Move>)
    requires Path(states, moves) && states[|states| - 1] == s && Inv(s) && !s.crashed
    requires t < |s.threads| && s.threads[t].pc.Idle? && s.threads[t].slot.NoChunk? && size <= CHUNK_SIZE
    ensures Path(states', moves') && states'[0] == states[0]
    ensures var s' := states'[|states'| - 1];
            OpenedAt(s, s', t, Fetched(s), 0, size) && s'.pool == PoolAfter(s, NoChunk)
  {
    var s1 := s.Put(t, s.threads[t].(pc := Start(size)));
    states', moves' := Extend(Step, states, moves, Move.Move(t, BeginOpen(size)), s1);
    Preserve(s, Move.Move(t, BeginOpen(size)), s1);
    states', moves' := Go(states', moves', s1, t);
    var s2 := AdvanceOpen(s1, t);
    Preserve(s1, Move.Move(t, Advance), s2);
    states', moves' := Refills(states', moves', s2, t, size, false);
    var s3 := states'[|states'| - 1];
    states', moves' := Go(states', moves', s3, t);
    states', moves' := Carves(states', moves', AdvanceOpen(s3, t), t, Fetched(s), size);
  }

  lemma {:induction false} FindsFull(states: seq<State>, moves: seq<Move>, s: State, t: nat, c: nat, size: nat)
    returns (states': seq<State>, moves': seq<Move>)
    requires Path(states, moves) && states[|states| - 1] == s && Inv(s) && !s.crashed
    requires t < |s.threads| && s.threads[t].pc.Idle? && s.threads[t].slot == Has(c)
    requires c < |s.chunks| && size > FreeSize(s.chunks[c])
    ensures Path(states', moves') && states'[0] == states[0]
    ensures var s' := states'[|states'| - 1];
            Inv(s') && s' == s.Put(t, s.threads[t].(pc := Pop(size, true)))
  {
    SlotClosed(s, t);
    var th := s.threads[t];
    var s1, s2 := s.Put(t, th.(pc := Start(size))), s.Put(t, th.(pc := Check(size)));
    var s3 := s.Put(t, th.(pc := Pop(size, true)));
    states', moves' := Extend(Step, states, moves, Move.Move(t, BeginOpen(size)), s1);
    Preserve(s, Move.Move(t, BeginOpen(size)), s1);
    assert s1.Put(t, s2.threads[t]) == s2;
    states', moves' := Go(states', moves', s1, t);
    Preserve(s1, Move.Move(t, Advance), s2);
    assert s2.Put(t, s3.threads[t]) == s3;
    states', moves' := Go(states', moves', s2, t);
    Preserve(s2, Move.Move(t, Advance), s3);
  }

  /** Open alone, with too little room: the buffer begins another chunk, and the old one goes back to
      the pool exactly if no live buffer refers to it. */
  lemma {:induction false} OpenNext(states: seq<State>, moves: seq<Move>, s: State, t: nat, c: nat, size: nat)
    returns (states': seq<State>, moves': seq<Move>)
    requires Path(states, moves) && states[|states| - 1] == s && Inv(s) && !s.crashed
    requires t < |s.threads| && s.threads[t].pc.Idle? && s.threads[t].slot == Has(c) && size <= CHUNK_SIZE
    requires c < |s.chunks| && size > FreeSize(s.chunks[c])
    ensures Path(states', moves') && states'[0] == states[0]
    ensures var s' := states'[|states'| - 1];
            OpenedAt(s, s', t, Fetched(s), 0, size) && s'.pool == PoolAfter(s, Has(c))
  {
    states', moves' := FindsFull(states, moves, s, t, c, size);
    var s1 := states'[|states'| - 1];
    SameLive(s, s1, c);
    states', moves' := Refills(states', moves', s1, t, size, true);
    states', moves' := Carves(states', moves', states'[|states'| - 1], t, Fetched(s), size);
  }

  /** Closing with size bytes leaves the chunk's fill mark where they end, so that the next buffer of the
      chunk, by OpenHere, begins there; and the buffer keeps exactly those bytes. */
  lemma {:induction false} CloseMarks(s: State, t: nat, size: nat)
    requires Inv(s) && !s.crashed && t < |s.threads| && s.threads[t].pc.Writing?
    ensures var b := s.threads[t].pc.b;
            && b < |s.buffers| && s.buffers[b].chunk < |s.chunks|
            && (size <= s.buffers[b].alloc ==>
                  var bu := s.buffers[b];
                  var s' := Next(s, Move.Move(t, Close(size)));
                  && !s'.crashed && s'.threads == s.threads[t := s.threads[t].(pc := Idle)] && s'.pool == s.pool
                  && bu.offset + size <= |s.chunks[bu.chunk].bytes|
                  && s'.chunks
                     == s.chunks[bu.chunk := s.chunks[bu.chunk].(open := false, used := bu.offset + size)]
                  && s'.buffers
                     == s.buffers[b := bu.(closed := true, write := size,
                                           data := s.chunks[bu.chunk].bytes[bu.offset..bu.offset + size])])
  {
    assert PcOk(s, t);
    assert BufferOk(s, s.threads[t].pc.b);
  }

  /** Letting go of a buffer alone gives its chunk back to the pool exactly if nothing else refers to the
      chunk. */
  lemma {:induction false} ReleaseAlone(states: seq<State>, moves: seq<Move>, s: State, t: nat, b: nat)
    returns (states': seq<State>, moves': seq<Move>)
    requires Path(states, moves) && states[|states| - 1] == s && Inv(s) && !s.crashed
    requires t < |s.threads| && s.threads[t].pc.Idle?
    requires b < |s.buffers| && s.buffers[b].live && s.buffers[b].closed
    ensures Path(states', moves') && states'[0] == states[0]
    ensures var s1 := s.(buffers := s.buffers[b := s.buffers[b].(live := false)]);
            var c, s' := s.buffers[b].chunk, states'[|states'| - 1];
            && s'.threads == s.threads && s'.chunks == s.chunks && s'.buffers == s1.buffers && !s'.crashed
            && s'.pool == s.pool + (if Referenced(s1, c) then [] else [c])
  {
    var s2 := Next(s, Move.Move(t, Release(b)));
    states', moves' := Extend(Step, states, moves, Move.Move(t, Release(b)), s2);
    assert HandsOk(s, t);
    if s2.threads[t].pc.PushDead? { states', moves' := Go(states', moves', s2, t); }
    assert states'[|states'| - 1].threads == s.threads;
  }

  /** A thread that ends alone gives its chunk back exactly if no live buffer refers to it. */
  lemma {:induction false} ExitAlone(states: seq<State>, moves: seq<Move>, s: State, t: nat)
    returns (states': seq<State>, moves': seq<Move>)
    requires Path(states, moves) && states[|states| - 1] == s && Inv(s) && !s.crashed
    requires t < |s.threads| && s.threads[t].pc.Idle? && s.threads[t].slot.Has?
    ensures Path(states', moves') && states'[0] == states[0]
    ensures var c, s' := s.threads[t].slot.c, states'[|states'| - 1];
            && s'.threads == s.threads[t := s.threads[t].(slot := NoChunk)]
            && s'.chunks == s.chunks && s'.buffers == s.buffers && !s'.crashed
            && s'.pool == s.pool + (if LiveIn(s, c) then [] else [c])
  {
    var th := s.threads[t];
    assert HandsOk(s, t);
    OnlyBuffersRefer(s, s.Put(t, th.(slot := NoChunk)), t, th.slot.c);
    var s2 := Next(s, Move.Move(t, Exit));
    states', moves' := Extend(Step, states, moves, Move.Move(t, Exit), s2);
    if s2.threads[t].pc.PushDead? { states', moves' := Go(states', moves', s2, t); }
    assert states'[|states'| - 1].threads == s.threads[t := th.(slot := NoChunk)];
  }

  /** Writing at a position of an open buffer changes that byte of its region and no other byte of any
      chunk. */
  lemma {:induction false} StoreWrites(s: State, t: nat, at: nat, x: Byte)
    requires Inv(s) && !s.crashed && t < |s.threads| && s.threads[t].pc.Writing?
    ensures s.threads[t].pc.b < |s.buffers|
    ensures at < s.buffers[s.threads[t].pc.b].alloc ==> Enabled(s, Move.Move(t, Store(at, x)))
    ensures at < s.buffers[s.threads[t].pc.b].alloc ==>
            var bu, s' := s.buffers[s.threads[t].pc.b], Next(s, Move.Move(t, Store(at, x)));
            && |s'.chunks| == |s.chunks| && s'.buffers == s.buffers && s'.threads == s.threads && s'.pool == s.pool
            && forall c, i :: 0 <= c < |s.chunks| && 0 <= i < |s.chunks[c].bytes| ==>
                 && |s'.chunks[c].bytes| == |s.chunks[c].bytes|
                 && s'.chunks[c].bytes[i]
                    == if c == bu.chunk && i == bu.offset + at then x else s.chunks[c].bytes[i]
  {
    assert PcOk(s, t);
    assert BufferOk(s, s.threads[t].pc.b);
  }
}
