/** ServerCore/SendBuffer: buffers carved one after another out of a thread's current chunk, shared
    with other threads until the last reference goes, and chunks recycled through a global pool by
    their deleter.  Any number of threads; a step is one operation on shared state. */
module SendBuffers {
  import opened Runs
  import opened Framing

  const CHUNK_SIZE := 6000

  // ---------------------------------------------------------------- SendBufferChunk

  datatype Chunk = Chunk(bytes: Bytes, open: bool, used: nat)

  /** A chunk as the constructor leaves it. */
  function Blank(): Chunk { Chunk(seq(CHUNK_SIZE, _ => 0), false, 0) }

  // _usedSize and FreeSize are 32 bits wide.
  const U32 := 0x1_0000_0000

  function FreeSize(ch: Chunk): int {
    if ch.used <= CHUNK_SIZE then CHUNK_SIZE - ch.used else CHUNK_SIZE - ch.used + U32
  }

  /** SendBufferChunk::Open; None stands for nullptr.  The first two outcomes are ASSERT_CRASH. */
  datatype Opening = TooBig | AlreadyOpen | NoRoom | Opened(offset: nat)

  function TryOpen(ch: Chunk, size: nat): Opening {
    if size > CHUNK_SIZE then TooBig
    else if ch.open then AlreadyOpen
    else if size > FreeSize(ch) then NoRoom
    else Opened(ch.used)
  }

  class SendBufferChunk {
    const buffer: array<Byte>
    var open: bool
    var usedSize: nat

    ghost predicate Valid()
      reads this
    {
      buffer.Length == CHUNK_SIZE && usedSize < U32
    }

    ghost function Model(): Chunk
      reads this, buffer
    {
      Chunk(buffer[..], open, usedSize)
    }

    constructor ()
      ensures Valid() && fresh(buffer) && !open && usedSize == 0
    {
      buffer := new Byte[CHUNK_SIZE](_ => 0);
      open, usedSize := false, 0;
    }

    method Reset()
      requires Valid()
      modifies this
      ensures Valid() && Model() == old(Model()).(open := false, used := 0)
    {
      open, usedSize := false, 0;
    }

    method Open(allocSize: nat) returns (r: Opening)
      requires Valid()
      modifies this
      ensures Valid() && r == TryOpen(old(Model()), allocSize)
      ensures Model() == if r.Opened? then old(Model()).(open := true) else old(Model())
      ensures r.Opened? && old(usedSize) <= CHUNK_SIZE ==> r.offset + allocSize <= CHUNK_SIZE
    {
      if allocSize > CHUNK_SIZE { return TooBig; }
      if open { return AlreadyOpen; }
      var freeSize := if usedSize <= CHUNK_SIZE then CHUNK_SIZE - usedSize else CHUNK_SIZE - usedSize + U32;
      if allocSize > freeSize { return NoRoom; }
      open := true;
      return Opened(usedSize);
    }

    /** False is ASSERT_CRASH.  The mark stays inside the chunk if the caller wrote no more than fits,
        which SendBuffer::Close sees to. */
    method Close(writeSize: nat) returns (ok: bool)
      requires Valid() && writeSize < U32
      modifies this
      ensures Valid() && ok == old(open)
      ensures !ok ==> Model() == old(Model())
      ensures ok ==> Model() == old(Model()).(open := false, used := usedSize)
      ensures ok ==> usedSize == old(usedSize) + writeSize || usedSize == old(usedSize) + writeSize - U32
    {
      if !open { return false; }
      open := false;
      usedSize := if usedSize + writeSize < U32 then usedSize + writeSize else usedSize + writeSize - U32;
      return true;
    }
  }

  // ---------------------------------------------------------------- the whole allocator

  datatype Slot = NoChunk | Has(c: nat)

  /** A SendBuffer ever handed out.  live: some reference to it remains.  data is history: what it
      held when it was closed. */
  datatype Buffer = Buffer(chunk: nat, offset: nat, alloc: nat, write: nat, closed: bool, live: bool, data: Bytes)

  /** Where a thread stands in SendBufferManager::Open, or in the deleter of a chunk. */
  datatype Pc =
    | Idle
    | Start(size: nat)
    | Pop(size: nat, again: bool)
    | Assign(size: nat, again: bool)
    | PushOld(size: nat, again: bool)
    | Reset(size: nat, again: bool)
    | Check(size: nat)
    | Carve(size: nat)
    | Writing(b: nat)
    | PushDead

  /** slot: LSendBufferChunk.  hand: what Pop returned, not yet assigned.  dying: a chunk whose last
      reference went, in the hands of its deleter. */
  datatype Thread = Thread(slot: Slot, hand: Slot, dying: Slot, pc: Pc)

  /** Where a chunk is; places is history, one entry a chunk. */
  datatype Place = Pooled | InSlot(t: nat) | InHand(t: nat) | Dying(t: nat) | Retired

  datatype State = State(
    chunks: seq<Chunk>, pool: seq<nat>, threads: seq<Thread>, buffers: seq<Buffer>, crashed: bool, places: seq<Place>)
  {
    function Put(t: nat, th: Thread): State
      requires t < |threads|
    {
      this.(threads := threads[t := th])
    }

    function Move(c: nat, p: Place): State {
      if c < |places| then this.(places := places[c := p]) else this
    }
  }

  datatype Choice =
    | BeginOpen(size: nat)
    | Store(at: nat, x: Byte)
    | Close(size: nat)
    | Release(b: nat)
    | Exit           // the thread ends: its slot is destroyed
    | Advance

  datatype Move = Move(t: nat, c: Choice)

  predicate LiveIn(s: State, c: nat) {
    exists b :: 0 <= b < |s.buffers| && s.buffers[b].live && s.buffers[b].chunk == c
  }

  /** Some shared_ptr to the chunk exists. */
  predicate Referenced(s: State, c: nat) {
    || c in s.pool
    || (exists t :: 0 <= t < |s.threads| && (s.threads[t].slot == Has(c) || s.threads[t].hand == Has(c)))
    || LiveIn(s, c)
  }

  /** A reference to c has just gone: if it was the last one, the chunk falls to t's deleter. */
  function Drop(s: State, t: nat, c: nat, pc: Pc, pcDead: Pc, kept: Place): State
    requires t < |s.threads|
  {
    if Referenced(s, c) then s.Move(c, kept).Put(t, s.threads[t].(pc := pc))
    else s.Move(c, Dying(t)).Put(t, s.threads[t].(pc := pcDead, dying := Has(c)))
  }

  predicate Enabled(s: State, m: Move) {
    && !s.crashed && m.t < |s.threads|
    && var pc := s.threads[m.t].pc;
       match m.c
       case BeginOpen(_) => pc.Idle?
       case Store(at, _) =>
         && pc.Writing? && pc.b < |s.buffers| && at < s.buffers[pc.b].alloc
         && s.buffers[pc.b].chunk < |s.chunks|
         && s.buffers[pc.b].offset + at < |s.chunks[s.buffers[pc.b].chunk].bytes|
       case Close(_) => pc.Writing? && pc.b < |s.buffers| && s.buffers[pc.b].chunk < |s.chunks|
       case Release(b) => pc.Idle? && b < |s.buffers| && s.buffers[b].live && s.buffers[b].closed
       case Exit => pc.Idle? && s.threads[m.t].slot.Has?
       case Advance => !pc.Idle? && !pc.Writing?
  }

  function AdvanceOpen(s: State, t: nat): State
    requires t < |s.threads|
  {
    var th := s.threads[t];
    match th.pc
    case Start(size) => s.Put(t, th.(pc := if th.slot.NoChunk? then Pop(size, false) else Check(size)))
    case Pop(size, again) =>
      if s.pool == [] then
        s.(chunks := s.chunks + [Blank()], places := s.places + [InHand(t)])
         .Put(t, th.(hand := Has(|s.chunks|), pc := Assign(size, again)))
      else
        s.(pool := s.pool[..|s.pool| - 1]).Move(s.pool[|s.pool| - 1], InHand(t))
         .Put(t, th.(hand := Has(s.pool[|s.pool| - 1]), pc := Assign(size, again)))
    case Assign(size, again) =>
      if th.hand.NoChunk? then s else
      var s' := s.Move(th.hand.c, InSlot(t)).Put(t, th.(slot := th.hand, hand := NoChunk));
      if th.slot.NoChunk? then s'.Put(t, s'.threads[t].(pc := Reset(size, again)))
      else Drop(s', t, th.slot.c, Reset(size, again), PushOld(size, again), Retired)
    case PushOld(size, again) =>
      if th.dying.NoChunk? then s
      else
        s.(pool := s.pool + [th.dying.c]).Move(th.dying.c, Pooled)
         .Put(t, th.(dying := NoChunk, pc := Reset(size, again)))
    case Reset(size, again) =>
      if th.slot.NoChunk? || th.slot.c >= |s.chunks| then s
      else s.(chunks := s.chunks[th.slot.c := s.chunks[th.slot.c].(open := false, used := 0)])
            .Put(t, th.(pc := if again then Carve(size) else Check(size)))
    case Check(size) =>
      if th.slot.NoChunk? || th.slot.c >= |s.chunks| then s
      else if s.chunks[th.slot.c].open then s.(crashed := true)
      else s.Put(t, th.(pc := if FreeSize(s.chunks[th.slot.c]) < size then Pop(size, true) else Carve(size)))
    case Carve(size) =>
      if th.slot.NoChunk? || th.slot.c >= |s.chunks| then s
      else
        var ch := s.chunks[th.slot.c];
        var r := TryOpen(ch, size);
        if !r.Opened? then s.(crashed := true)
        else s.(chunks := s.chunks[th.slot.c := ch.(open := true)],
                buffers := s.buffers + [Buffer(th.slot.c, r.offset, size, 0, false, true, [])])
              .Put(t, th.(pc := Writing(|s.buffers|)))
    case PushDead =>
      if th.dying.NoChunk? then s
      else s.(pool := s.pool + [th.dying.c]).Move(th.dying.c, Pooled).Put(t, th.(dying := NoChunk, pc := Idle))
    case Idle => s
    case Writing(_) => s
  }

  function CloseBuffer(s: State, t: nat, b: nat, size: nat): State
    requires t < |s.threads| && b < |s.buffers| && s.buffers[b].chunk < |s.chunks|
  {
    var bu := s.buffers[b];
    var ch := s.chunks[bu.chunk];
    if size > bu.alloc || !ch.open || bu.offset + size > |ch.bytes| then s.(crashed := true)
    else s.(chunks := s.chunks[bu.chunk := ch.(open := false, used := ch.used + size)],
            buffers := s.buffers[b := bu.(write := size, closed := true,
                                          data := ch.bytes[bu.offset..bu.offset + size])])
          .Put(t, s.threads[t].(pc := Idle))
  }

  function Next(s: State, m: Move): State
    requires Enabled(s, m)
  {
    var th := s.threads[m.t];
    match m.c
    case BeginOpen(size) => s.Put(m.t, th.(pc := Start(size)))
    case Store(at, x) =>
      var bu := s.buffers[th.pc.b];
      var ch := s.chunks[bu.chunk];
      s.(chunks := s.chunks[bu.chunk := ch.(bytes := ch.bytes[bu.offset + at := x])])
    case Close(size) => CloseBuffer(s, m.t, th.pc.b, size)
    case Release(b) =>
      var c := s.buffers[b].chunk;
      Drop(s.(buffers := s.buffers[b := s.buffers[b].(live := false)]), m.t, c, Idle, PushDead,
           if c < |s.places| then s.places[c] else Retired)
    case Exit =>
      Drop(s.Put(m.t, th.(slot := NoChunk)), m.t, th.slot.c, Idle, PushDead, Retired)
    case Advance => AdvanceOpen(s, m.t)
  }

  ghost predicate Step(s: State, m: Move, s': State) { Enabled(s, m) && s' == Next(s, m) }

  ghost predicate Path(states: seq<State>, moves: seq<Move>) { Linked(Step, states, moves) }

  predicate Init(s: State) {
    && s.chunks == [] && s.pool == [] && s.buffers == [] && s.places == [] && !s.crashed
    && forall t :: 0 <= t < |s.threads| ==> s.threads[t] == Thread(NoChunk, NoChunk, NoChunk, Idle)
  }

  // ---------------------------------------------------------------- invariant

  predicate SlotAt(s: State, slot: Slot, p: Place) {
    slot.Has? ==> slot.c < |s.places| && s.places[slot.c] == p
  }

  /** What a thread holds is placed with it, and its program point says what it holds. */
  predicate HandsOk(s: State, t: nat)
    requires t < |s.threads|
  {
    var th := s.threads[t];
    && (th.hand.Has? <==> th.pc.Assign?)
    && (th.dying.Has? <==> th.pc.PushOld? || th.pc.PushDead?)
    && (th.pc.PushOld? || th.pc.Reset? || th.pc.Check? || th.pc.Carve? || th.pc.Writing? ==> th.slot.Has?)
    && SlotAt(s, th.slot, InSlot(t)) && SlotAt(s, th.hand, InHand(t)) && SlotAt(s, th.dying, Dying(t))
  }

  /** A chunk is where its place says; only in a slot or retired can it have live buffers, and
      retired it has some. */
  predicate PlaceOk(s: State, c: nat)
    requires c < |s.places|
  {
    match s.places[c]
    case Pooled => c in s.pool && !LiveIn(s, c)
    case InSlot(t) => t < |s.threads| && s.threads[t].slot == Has(c)
    case InHand(t) => t < |s.threads| && s.threads[t].hand == Has(c) && !LiveIn(s, c)
    case Dying(t) => t < |s.threads| && s.threads[t].dying == Has(c) && !LiveIn(s, c)
    case Retired => LiveIn(s, c)
  }

  ghost predicate Placed(s: State) {
    && |s.places| == |s.chunks|
    && (forall t :: 0 <= t < |s.threads| ==> HandsOk(s, t))
    && (forall c :: 0 <= c < |s.places| ==> PlaceOk(s, c))
    && (forall i :: 0 <= i < |s.pool| ==> s.pool[i] < |s.places| && s.places[s.pool[i]].Pooled?)
    && (forall i, j :: 0 <= i < j < |s.pool| ==> s.pool[i] != s.pool[j])
    && (forall b :: 0 <= b < |s.buffers| ==> s.buffers[b].chunk < |s.places|)
    && (forall b :: 0 <= b < |s.buffers| && !s.buffers[b].closed ==> s.buffers[b].live)
  }

  lemma {:induction false} PopKept(s: State, m: Move, s': State)
    requires Placed(s) && Step(s, m, s') && m.c.Advance? && s.threads[m.t].pc.Pop?
    ensures Placed(s')
  {
    assert HandsOk(s, m.t);
    forall c | 0 <= c < |s.places| ensures PlaceOk(s', c) { assert PlaceOk(s, c); }
    forall t | 0 <= t < |s.threads| ensures HandsOk(s', t) { assert HandsOk(s, t); }
  }

  lemma {:induction false} PushKept(s: State, m: Move, s': State)
    requires Placed(s) && Step(s, m, s') && m.c.Advance? && (s.threads[m.t].pc.PushOld? || s.threads[m.t].pc.PushDead?)
    ensures Placed(s')
  {
    assert HandsOk(s, m.t);
    forall c | 0 <= c < |s.places| ensures PlaceOk(s', c) { assert PlaceOk(s, c); }
    forall t | 0 <= t < |s.threads| ensures HandsOk(s', t) { assert HandsOk(s, t); }
  }

  /** The buffers of s, in the same chunks and as live as before, are among those of s'. */
  predicate KeepsBuffers(s: State, s': State) {
    && |s.buffers| <= |s'.buffers|
    && forall b :: 0 <= b < |s.buffers| ==>
         s'.buffers[b].live == s.buffers[b].live && s'.buffers[b].chunk == s.buffers[b].chunk
  }

  lemma {:induction false} LiveStays(s: State, s': State, c: nat)
    requires KeepsBuffers(s, s') && LiveIn(s, c)
    ensures LiveIn(s', c)
  {
  }

  lemma {:induction false} CarveKept(s: State, m: Move, s': State)
    requires Placed(s) && Step(s, m, s') && m.c.Advance? && s.threads[m.t].pc.Carve?
    ensures Placed(s')
  {
    assert HandsOk(s, m.t);
    forall c | 0 <= c < |s.places|
      ensures PlaceOk(s', c)
    {
      assert PlaceOk(s, c);
      if LiveIn(s, c) { LiveStays(s, s', c); }
    }
    forall t | 0 <= t < |s.threads| ensures HandsOk(s', t) { assert HandsOk(s, t); }
  }

  /** Only thread t changed, in its program point, and no chunk moved. */
  predicate Unmoved(s: State, s': State, t: nat) {
    && s'.places == s.places && s'.pool == s.pool && |s'.chunks| == |s.chunks|
    && KeepsBuffers(s, s') && |s'.buffers| == |s.buffers|
    && t < |s.threads| == |s'.threads|
    && s'.threads[t] == s.threads[t].(pc := s'.threads[t].pc)
    && (forall u :: 0 <= u < |s.threads| && u != t ==> s'.threads[u] == s.threads[u])
    && (forall b :: 0 <= b < |s.buffers| && s.buffers[b].closed ==> s'.buffers[b].closed)
  }

  lemma {:induction false} UnmovedPlaced(s: State, s': State, t: nat)
    requires Placed(s) && Unmoved(s, s', t) && HandsOk(s', t)
    ensures Placed(s')
  {
    forall c | 0 <= c < |s.places|
      ensures PlaceOk(s', c)
    {
      assert PlaceOk(s, c);
      if LiveIn(s, c) { LiveStays(s, s', c); }
    }
    forall u | 0 <= u < |s.threads| && u != t ensures HandsOk(s', u) { assert HandsOk(s, u); }
  }

  /** Opening, writing, closing and resetting move no chunk. */
  lemma {:induction false} QuietKept(s: State, m: Move, s': State)
    requires Placed(s) && Step(s, m, s')
    requires var pc := s.threads[m.t].pc;
             || m.c.BeginOpen? || m.c.Store? || m.c.Close?
             || (m.c.Advance? && (pc.Start? || pc.Reset? || pc.Check?))
    ensures Placed(s')
  {
    assert HandsOk(s, m.t);
    UnmovedPlaced(s, s', m.t);
  }

  /** A chunk that left thread t's slot is referenced by nothing but its live buffers. */
  lemma {:induction false} OnlyBuffersRefer(s: State, s1: State, t: nat, c: nat)
    requires Placed(s) && t < |s.threads| && s.threads[t].slot == Has(c)
    requires s1.pool == s.pool && s1.buffers == s.buffers && |s1.threads| == |s.threads|
    requires s1.threads[t].slot != Has(c) && s1.threads[t].hand != Has(c)
    requires forall u :: 0 <= u < |s.threads| && u != t ==> s1.threads[u] == s.threads[u]
    ensures Referenced(s1, c) <==> LiveIn(s, c)
  {
    assert HandsOk(s, t);
    forall u | 0 <= u < |s.threads| && u != t
      ensures s.threads[u].slot != Has(c) && s.threads[u].hand != Has(c)
    {
      assert HandsOk(s, u);
    }
    if LiveIn(s, c) { LiveStays(s, s1, c); }
    if LiveIn(s1, c) { LiveStays(s1, s, c); }
  }

  /** The popped chunk is in the slot; what was there before, if anything, has only its live
      buffers, or is with the deleter. */
  predicate Assigned(s: State, s': State, t: nat) {
    && s'.pool == s.pool && s'.chunks == s.chunks && s'.buffers == s.buffers
    && t < |s.threads| == |s'.threads| && s.threads[t].hand.Has?
    && (forall u :: 0 <= u < |s.threads| && u != t ==> s'.threads[u] == s.threads[u])
    && var th, th' := s.threads[t], s'.threads[t];
       var gone := th.slot.Has? && !LiveIn(s, th.slot.c);
       && th'.slot == th.hand && th'.hand.NoChunk?
       && th'.dying == (if gone then th.slot else th.dying)
       && (if gone then th'.pc.PushOld? else th'.pc.Reset?)
       && |s'.places| == |s.places|
       && forall c :: 0 <= c < |s.places| ==>
            s'.places[c] == (if th.slot == Has(c) then (if gone then Dying(t) else Retired)
                             else if th.hand == Has(c) then InSlot(t) else s.places[c])
  }

  lemma {:induction false} AssignedPlaced(s: State, s': State, t: nat)
    requires Placed(s) && Assigned(s, s', t) && s.threads[t].dying.NoChunk?
    ensures Placed(s')
  {
    assert HandsOk(s, t);
    forall c | 0 <= c < |s.places|
      ensures PlaceOk(s', c)
    {
      assert PlaceOk(s, c);
      if LiveIn(s, c) { LiveStays(s, s', c); }
      if LiveIn(s', c) { LiveStays(s', s, c); }
    }
    forall u | 0 <= u < |s.threads| ensures HandsOk(s', u) { assert HandsOk(s, u); }
  }

  lemma {:induction false} AssignKept(s: State, m: Move, s': State)
    requires Placed(s) && Step(s, m, s') && m.c.Advance? && s.threads[m.t].pc.Assign?
    ensures Placed(s')
  {
    var t, th := m.t, s.threads[m.t];
    assert HandsOk(s, t);
    var s1 := s.Move(th.hand.c, InSlot(t)).Put(t, th.(slot := th.hand, hand := NoChunk));
    if th.slot.Has? { OnlyBuffersRefer(s, s1, t, th.slot.c); }
    AssignedPlaced(s, s', t);
  }

  lemma {:induction false} ExitKept(s: State, m: Move, s': State)
    requires Placed(s) && Step(s, m, s') && m.c.Exit?
    ensures Placed(s')
  {
    var t, th := m.t, s.threads[m.t];
    assert HandsOk(s, t);
    OnlyBuffersRefer(s, s.Put(t, th.(slot := NoChunk)), t, th.slot.c);
    forall c | 0 <= c < |s.places|
      ensures PlaceOk(s', c)
    {
      assert PlaceOk(s, c);
      if LiveIn(s, c) { LiveStays(s, s', c); }
      if LiveIn(s', c) { LiveStays(s', s, c); }
    }
    forall u | 0 <= u < |s.threads| ensures HandsOk(s', u) { assert HandsOk(s, u); }
  }

  /** Buffer b was let go; if it was the last thing to refer to its chunk, the chunk is with t's
      deleter. */
  predicate LetGo(s: State, s': State, t: nat, b: nat) {
    && b < |s.buffers| && s.buffers[b].chunk < |s.places|
    && s'.pool == s.pool && s'.chunks == s.chunks && s'.buffers == s.buffers[b := s.buffers[b].(live := false)]
    && t < |s.threads| == |s'.threads|
    && (forall u :: 0 <= u < |s.threads| && u != t ==> s'.threads[u] == s.threads[u])
    && var c := s.buffers[b].chunk;
       var gone := s.places[c].Retired? && !LiveIn(s', c);
       && s'.places == (if gone then s.places[c := Dying(t)] else s.places)
       && s'.threads[t] == (if gone then s.threads[t].(pc := PushDead, dying := Has(c)) else s.threads[t].(pc := Idle))
  }

  lemma {:induction false} LetGoPlaced(s: State, s': State, t: nat, b: nat)
    requires Placed(s) && LetGo(s, s', t, b) && s.threads[t].pc.Idle? && s.buffers[b].live && s.buffers[b].closed
    ensures Placed(s')
  {
    assert HandsOk(s, t) && PlaceOk(s, s.buffers[b].chunk);
    forall c | 0 <= c < |s.places|
      ensures PlaceOk(s', c)
    {
      assert PlaceOk(s, c);
      if LiveIn(s, c) && c != s.buffers[b].chunk {
        var x :| 0 <= x < |s.buffers| && s.buffers[x].live && s.buffers[x].chunk == c;
        assert s'.buffers[x].live && s'.buffers[x].chunk == c;
      }
      if LiveIn(s', c) {
        var x :| 0 <= x < |s'.buffers| && s'.buffers[x].live && s'.buffers[x].chunk == c;
        assert s.buffers[x].live && s.buffers[x].chunk == c;
      }
    }
    forall u | 0 <= u < |s.threads| ensures HandsOk(s', u) { assert HandsOk(s, u); }
  }

  lemma {:induction false} ReleaseKept(s: State, m: Move, s': State)
    requires Placed(s) && Step(s, m, s') && m.c.Release?
    ensures Placed(s')
  {
    var c := s.buffers[m.c.b].chunk;
    var s1 := s.(buffers := s.buffers[m.c.b := s.buffers[m.c.b].(live := false)]);
    assert PlaceOk(s, c) && LiveIn(s, c);
    forall u | 0 <= u < |s.threads|
      ensures s.threads[u].hand != Has(c) && (s.places[c].Retired? ==> s.threads[u].slot != Has(c))
    {
      assert HandsOk(s, u);
    }
    assert Referenced(s1, c) <==> s.places[c].InSlot? || LiveIn(s1, c);
    assert LiveIn(s', c) <==> LiveIn(s1, c);
    LetGoPlaced(s, s', m.t, m.c.b);
  }

  lemma {:induction false} PlacedKept(s: State, m: Move, s': State)
    requires Placed(s) && Step(s, m, s')
    ensures Placed(s')
  {
    var pc := s.threads[m.t].pc;
    if m.c.Release? {
      ReleaseKept(s, m, s');
    } else if m.c.Exit? {
      ExitKept(s, m, s');
    } else if m.c.Advance? && pc.Pop? {
      PopKept(s, m, s');
    } else if m.c.Advance? && pc.Assign? {
      AssignKept(s, m, s');
    } else if m.c.Advance? && (pc.PushOld? || pc.PushDead?) {
      PushKept(s, m, s');
    } else if m.c.Advance? && pc.Carve? {
      CarveKept(s, m, s');
    } else {
      QuietKept(s, m, s');
    }
  }

  // ---------------------------------------------------------------- what the buffers hold

  /** A closed buffer still holds what it held when it was closed, below the chunk's fill mark; an
      open one starts at the fill mark. */
  predicate BufferOk(s: State, b: nat)
    requires b < |s.buffers| && s.buffers[b].chunk < |s.chunks|
  {
    var bu, ch := s.buffers[b], s.chunks[s.buffers[b].chunk];
    bu.live ==>
      && |ch.bytes| == CHUNK_SIZE
      && (bu.closed ==>
            && bu.write <= bu.alloc && bu.offset + bu.write <= ch.used <= CHUNK_SIZE
            && ch.bytes[bu.offset..bu.offset + bu.write] == bu.data)
      && (!bu.closed ==> ch.open && bu.offset == ch.used && bu.offset + bu.alloc <= CHUNK_SIZE)
  }

  /** Of two live buffers of a chunk the earlier one is closed and ends where the later one begins,
      or before. */
  predicate Apart(s: State, a: nat, b: nat)
    requires a < b < |s.buffers|
  {
    s.buffers[a].live && s.buffers[b].live && s.buffers[a].chunk == s.buffers[b].chunk ==>
      s.buffers[a].closed && s.buffers[a].offset + s.buffers[a].write <= s.buffers[b].offset
  }

  /** A chunk is open only in the slot of a thread that is writing. */
  predicate ChunkOk(s: State, c: nat)
    requires c < |s.chunks|
  {
    && |s.chunks[c].bytes| == CHUNK_SIZE && s.chunks[c].used <= CHUNK_SIZE
    && (s.chunks[c].open ==>
          && c < |s.places| && s.places[c].InSlot? && s.places[c].t < |s.threads|
          && s.threads[s.places[c].t].pc.Writing?)
  }

  predicate PcOk(s: State, t: nat)
    requires t < |s.threads|
  {
    var th := s.threads[t];
    && (th.pc.Reset? || th.pc.PushOld? ==> th.slot.Has? && !LiveIn(s, th.slot.c))
    && (th.pc.Carve? && th.pc.size <= CHUNK_SIZE ==>
          th.slot.Has? && th.slot.c < |s.chunks| && FreeSize(s.chunks[th.slot.c]) >= th.pc.size)
    && (th.pc.Writing? ==>
          && th.pc.b < |s.buffers| && !s.buffers[th.pc.b].closed
          && th.slot == Has(s.buffers[th.pc.b].chunk))
  }

  ghost predicate Inv(s: State) {
    && Placed(s)
    && (forall c :: 0 <= c < |s.chunks| ==> ChunkOk(s, c))
    && (forall t :: 0 <= t < |s.threads| ==> PcOk(s, t))
    && (forall b :: 0 <= b < |s.buffers| ==> s.buffers[b].chunk < |s.chunks| && BufferOk(s, b))
    && (forall a, b :: 0 <= a < b < |s.buffers| ==> Apart(s, a, b))
  }

  lemma {:induction false} InitInv(s: State)
    requires Init(s)
    ensures Inv(s)
  {
  }

  /** The chunk in the mover's slot is not open unless the mover is writing. */
  lemma {:induction false} SlotClosed(s: State, t: nat)
    requires Inv(s) && t < |s.threads| && s.threads[t].slot.Has? && !s.threads[t].pc.Writing?
    ensures s.threads[t].slot.c < |s.chunks| && !s.chunks[s.threads[t].slot.c].open
  {
    assert HandsOk(s, t) && ChunkOk(s, s.threads[t].slot.c);
  }

  /** While b is being written, every other live buffer of its chunk is closed. */
  lemma {:induction false} OthersClosed(s: State, b: nat, x: nat)
    requires Inv(s) && b < |s.buffers| && !s.buffers[b].closed && x < |s.buffers| && x != b
    requires s.buffers[x].live && s.buffers[x].chunk == s.buffers[b].chunk
    ensures s.buffers[x].closed && x < b
  {
    assert x < b ==> Apart(s, x, b);
    assert b < x ==> Apart(s, b, x);
  }

  lemma {:induction false} StoreKept(s: State, m: Move, s': State)
    requires Inv(s) && Step(s, m, s') && m.c.Store?
    ensures Inv(s')
  {
    PlacedKept(s, m, s');
    var b := s.threads[m.t].pc.b;
    assert PcOk(s, m.t) && BufferOk(s, b);
    forall c | 0 <= c < |s'.chunks| ensures ChunkOk(s', c) { assert ChunkOk(s, c); }
    forall x | 0 <= x < |s'.buffers|
      ensures BufferOk(s', x)
    {
      assert BufferOk(s, x);
      if x != b && s.buffers[x].live && s.buffers[x].chunk == s.buffers[b].chunk {
        OthersClosed(s, b, x);
        var bu := s.buffers[x];
        var c := bu.chunk;
        var end := bu.offset + bu.write;
        assert s'.chunks[c].bytes[bu.offset..end] == s.chunks[c].bytes[bu.offset..end];
      }
    }
    forall x, y | 0 <= x < y < |s'.buffers| ensures Apart(s', x, y) { assert Apart(s, x, y); }
    forall t | 0 <= t < |s'.threads| ensures PcOk(s', t) { assert PcOk(s, t); }
  }

  lemma {:induction false} CloseBuffers(s: State, m: Move, s': State, x: nat)
    requires Inv(s) && Step(s, m, s') && m.c.Close? && x < |s.buffers|
    ensures x < |s'.buffers| && s'.buffers[x].chunk < |s'.chunks| && BufferOk(s', x)
  {
    var b := s.threads[m.t].pc.b;
    assert PcOk(s, m.t) && BufferOk(s, b) && BufferOk(s, x);
    if x != b && s.buffers[x].live && s.buffers[x].chunk == s.buffers[b].chunk { OthersClosed(s, b, x); }
  }

  lemma {:induction false} CloseKept(s: State, m: Move, s': State)
    requires Inv(s) && Step(s, m, s') && m.c.Close?
    ensures Inv(s')
  {
    PlacedKept(s, m, s');
    assert PcOk(s, m.t) && BufferOk(s, s.threads[m.t].pc.b) && HandsOk(s, m.t);
    forall d | 0 <= d < |s'.chunks| ensures ChunkOk(s', d) { assert ChunkOk(s, d) && PlaceOk(s, d); }
    forall x | 0 <= x < |s'.buffers|
      ensures s'.buffers[x].chunk < |s'.chunks| && BufferOk(s', x)
    {
      CloseBuffers(s, m, s', x);
    }
    forall x, y | 0 <= x < y < |s'.buffers| ensures Apart(s', x, y) { assert Apart(s, x, y); }
    forall t | 0 <= t < |s'.threads| && t != m.t ensures PcOk(s', t) { assert PcOk(s, t) && HandsOk(s, t); }
  }

  lemma {:induction false} ResetKept(s: State, m: Move, s': State)
    requires Inv(s) && Step(s, m, s') && m.c.Advance? && s.threads[m.t].pc.Reset?
    ensures Inv(s')
  {
    PlacedKept(s, m, s');
    assert PcOk(s, m.t) && HandsOk(s, m.t);
    SlotClosed(s, m.t);
    forall d | 0 <= d < |s'.chunks| ensures ChunkOk(s', d) { assert ChunkOk(s, d); }
    forall x | 0 <= x < |s'.buffers| ensures BufferOk(s', x) { assert BufferOk(s, x); }
    forall x, y | 0 <= x < y < |s'.buffers| ensures Apart(s', x, y) { assert Apart(s, x, y); }
    forall t | 0 <= t < |s'.threads| && t != m.t ensures PcOk(s', t) { assert PcOk(s, t) && HandsOk(s, t); }
  }

  lemma {:induction false} CarvedKept(s: State, m: Move, s': State)
    requires Inv(s) && Step(s, m, s') && m.c.Advance? && s.threads[m.t].pc.Carve?
    ensures Inv(s')
  {
    PlacedKept(s, m, s');
    assert PcOk(s, m.t) && HandsOk(s, m.t);
    SlotClosed(s, m.t);
    forall d | 0 <= d < |s'.chunks| ensures ChunkOk(s', d) { assert ChunkOk(s, d); }
    forall x | 0 <= x < |s'.buffers|
      ensures BufferOk(s', x)
    {
      if x < |s.buffers| { assert BufferOk(s, x); } else { assert ChunkOk(s, s.threads[m.t].slot.c); }
    }
    forall x, y | 0 <= x < y < |s'.buffers|
      ensures Apart(s', x, y)
    {
      assert BufferOk(s, x);
      if y < |s.buffers| { assert Apart(s, x, y); }
    }
    forall t | 0 <= t < |s'.threads| && t != m.t
      ensures PcOk(s', t)
    {
      assert PcOk(s, t) && HandsOk(s, t);
    }
  }

  /** No byte, mark or buffer changed, except that buffers may have been let go and a fresh chunk
      may have been added; and the mover t was not writing. */
  predicate SameContents(s: State, s': State, t: nat) {
    && |s.chunks| <= |s'.chunks|
    && (forall c :: 0 <= c < |s.chunks| ==> s'.chunks[c] == s.chunks[c])
    && (forall c :: |s.chunks| <= c < |s'.chunks| ==>
          |s'.chunks[c].bytes| == CHUNK_SIZE && !s'.chunks[c].open && s'.chunks[c].used == 0)
    && |s'.buffers| == |s.buffers|
    && (forall b :: 0 <= b < |s.buffers| ==>
          s'.buffers[b] == s.buffers[b] || s'.buffers[b] == s.buffers[b].(live := false))
    && t < |s.threads| == |s'.threads|
    && !s.threads[t].pc.Writing?
    && (forall u :: 0 <= u < |s.threads| && u != t ==> s'.threads[u] == s.threads[u])
  }

  lemma {:induction false} SameContentsKept(s: State, s': State, t: nat)
    requires Inv(s) && Placed(s') && SameContents(s, s', t) && PcOk(s', t)
    ensures Inv(s')
  {
    forall c | 0 <= c < |s'.chunks|
      ensures ChunkOk(s', c)
    {
      if c < |s.chunks| && s.chunks[c].open {
        assert ChunkOk(s, c) && PlaceOk(s, c);
        var u := s.places[c].t;
        assert HandsOk(s, u) && HandsOk(s', u);
      } else if c < |s.chunks| {
        assert ChunkOk(s, c);
      }
    }
    forall x | 0 <= x < |s'.buffers| ensures BufferOk(s', x) { assert BufferOk(s, x); }
    forall x, y | 0 <= x < y < |s'.buffers| ensures Apart(s', x, y) { assert Apart(s, x, y); }
    forall u | 0 <= u < |s'.threads| && u != t
      ensures PcOk(s', u)
    {
      assert PcOk(s, u) && HandsOk(s, u);
      if s.threads[u].slot.Has? { LiveFalls(s, s', t, s.threads[u].slot.c); }
    }
  }

  /** The remaining steps: they move chunks about, or only the program point. */
  predicate Moves(s: State, m: Move) {
    && !m.c.Store? && !m.c.Close? && m.t < |s.threads|
    && (m.c.Advance? ==> !s.threads[m.t].pc.Reset? && !s.threads[m.t].pc.Carve?)
  }

  lemma {:induction false} DropContents(s: State, t: nat, c: nat, pc: Pc, pcDead: Pc, kept: Place)
    requires t < |s.threads|
    ensures var s' := Drop(s, t, c, pc, pcDead, kept);
            && s'.chunks == s.chunks && s'.buffers == s.buffers && s'.pool == s.pool && |s'.threads| == |s.threads|
            && (forall u :: 0 <= u < |s.threads| && u != t ==> s'.threads[u] == s.threads[u])
            && (s'.threads[t].pc == pc || s'.threads[t].pc == pcDead)
  {
  }

  lemma {:induction false} AdvanceContents(s: State, t: nat)
    requires t < |s.threads| && !s.threads[t].pc.Writing? && !s.threads[t].pc.Reset? && !s.threads[t].pc.Carve?
    ensures SameContents(s, AdvanceOpen(s, t), t)
  {
    var th := s.threads[t];
    if th.pc.Assign? && th.hand.Has? && th.slot.Has? {
      var s1 := s.Move(th.hand.c, InSlot(t)).Put(t, th.(slot := th.hand, hand := NoChunk));
      DropContents(s1, t, th.slot.c, Reset(th.pc.size, th.pc.again), PushOld(th.pc.size, th.pc.again), Retired);
    }
  }

  lemma {:induction false} MovesContents(s: State, m: Move, s': State)
    requires Step(s, m, s') && Moves(s, m)
    ensures SameContents(s, s', m.t)
  {
    if m.c.Advance? { AdvanceContents(s, m.t); }
  }

  lemma {:induction false} LiveFalls(s: State, s': State, t: nat, c: nat)
    requires SameContents(s, s', t)
    ensures LiveIn(s', c) ==> LiveIn(s, c)
  {
  }

  /** Where such a step can leave the mover, and with which chunk in its slot. */
  predicate Onward(s: State, th: Thread, th': Thread) {
    && !(th'.pc.Writing? && !th.pc.Writing?)
    && (th'.pc.Reset? || th'.pc.PushOld? ==>
          || (th.pc.Assign? && (th.hand.Has? ==> th'.slot == th.hand))
          || (th.pc.PushOld? && th'.slot == th.slot))
    && (th'.pc.Carve? ==>
          && th.pc.Check? && th'.slot == th.slot && th.slot.Has? && th.slot.c < |s.chunks|
          && FreeSize(s.chunks[th.slot.c]) >= th'.pc.size)
  }

  lemma {:induction false} AssignEffect(s: State, t: nat)
    requires t < |s.threads| && s.threads[t].pc.Assign?
    ensures |AdvanceOpen(s, t).threads| == |s.threads|
    ensures Onward(s, s.threads[t], AdvanceOpen(s, t).threads[t])
  {
  }

  lemma {:induction false} OpenEffect(s: State, t: nat)
    requires t < |s.threads|
    requires var pc := s.threads[t].pc; !pc.Assign? && !pc.Reset? && !pc.Carve?
    ensures |AdvanceOpen(s, t).threads| == |s.threads|
    ensures Onward(s, s.threads[t], AdvanceOpen(s, t).threads[t])
  {
  }

  lemma {:induction false} MovesEffect(s: State, m: Move, s': State)
    requires Step(s, m, s') && Moves(s, m)
    ensures |s'.threads| == |s.threads| && Onward(s, s.threads[m.t], s'.threads[m.t])
  {
    if m.c.Advance? {
      if s.threads[m.t].pc.Assign? { AssignEffect(s, m.t); } else { OpenEffect(s, m.t); }
    }
  }

  lemma {:induction false} MovesPc(s: State, m: Move, s': State)
    requires Inv(s) && Step(s, m, s') && Moves(s, m) && SameContents(s, s', m.t)
    ensures PcOk(s', m.t)
  {
    var th := s.threads[m.t];
    MovesEffect(s, m, s');
    assert PcOk(s, m.t) && HandsOk(s, m.t);
    if th.hand.Has? {
      assert PlaceOk(s, th.hand.c);
      LiveFalls(s, s', m.t, th.hand.c);
    }
    if th.slot.Has? { LiveFalls(s, s', m.t, th.slot.c); }
  }

  lemma {:induction false} MovesKept(s: State, m: Move, s': State)
    requires Inv(s) && Step(s, m, s') && Moves(s, m)
    ensures Inv(s')
  {
    PlacedKept(s, m, s');
    MovesContents(s, m, s');
    MovesPc(s, m, s');
    SameContentsKept(s, s', m.t);
  }

  lemma {:induction false} Preserve(s: State, m: Move, s': State)
    requires Inv(s) && Step(s, m, s')
    ensures Inv(s')
  {
    var pc := s.threads[m.t].pc;
    if m.c.Store? {
      StoreKept(s, m, s');
    } else if m.c.Close? {
      CloseKept(s, m, s');
    } else if m.c.Advance? && pc.Reset? {
      ResetKept(s, m, s');
    } else if m.c.Advance? && pc.Carve? {
      CarvedKept(s, m, s');
    } else {
      MovesKept(s, m, s');
    }
  }

  lemma {:induction false} RunInv(states: seq<State>, moves: seq<Move>, i: nat)
    requires Path(states, moves) && Init(states[0]) && i < |states|
    ensures Inv(states[i])
  {
    if i == 0 {
      InitInv(states[0]);
    } else {
      RunInv(states, moves, i - 1);
      assert Step(states[i - 1], moves[i - 1], states[i]);
      Preserve(states[i - 1], moves[i - 1], states[i]);
    }
  }

  // ---------------------------------------------------------------- results

  /** The end of the bytes a buffer may use: all it asked for while open, what it wrote once closed. */
  function End(bu: Buffer): nat { bu.offset + (if bu.closed then bu.write else bu.alloc) }

  /** What a closed buffer's bytes are now. */
  function Held(s: State, b: nat): Bytes
    requires b < |s.buffers| && s.buffers[b].chunk < |s.chunks|
    requires s.buffers[b].offset + s.buffers[b].write <= |s.chunks[s.buffers[b].chunk].bytes|
  {
    s.chunks[s.buffers[b].chunk].bytes[s.buffers[b].offset..s.buffers[b].offset + s.buffers[b].write]
  }

  /** In every state of every run, two live buffers of one chunk use disjoint bytes inside it. */
  lemma {:induction false} LiveBuffersDisjoint(states: seq<State>, moves: seq<Move>, i: nat, a: nat, b: nat)
    requires Path(states, moves) && Init(states[0]) && i < |states| && a < b < |states[i].buffers|
    requires states[i].buffers[a].live && states[i].buffers[b].live
    requires states[i].buffers[a].chunk == states[i].buffers[b].chunk
    ensures End(states[i].buffers[a]) <= states[i].buffers[b].offset && End(states[i].buffers[b]) <= CHUNK_SIZE
  {
    RunInv(states, moves, i);
    assert Apart(states[i], a, b) && BufferOk(states[i], b);
  }

  /** The record of a closed buffer never changes again, except that it may be let go for good. */
  lemma {:induction false} RecordFixed(states: seq<State>, moves: seq<Move>, i: nat, k: nat, b: nat)
    requires Path(states, moves) && Init(states[0]) && i <= k < |states|
    requires b < |states[i].buffers| && states[i].buffers[b].closed
    ensures b < |states[k].buffers|
    ensures states[k].buffers[b] == states[i].buffers[b] || states[k].buffers[b] == states[i].buffers[b].(live := false)
  {
    if i < k {
      RecordFixed(states, moves, i, k - 1, b);
      RunInv(states, moves, k - 1);
      assert Step(states[k - 1], moves[k - 1], states[k]);
      RecordStep(states[k - 1], moves[k - 1], states[k], b);
    }
  }

  lemma {:induction false} RecordStep(s: State, m: Move, s': State, b: nat)
    requires Inv(s) && Step(s, m, s') && b < |s.buffers| && s.buffers[b].closed
    ensures b < |s'.buffers|
    ensures s'.buffers[b] == s.buffers[b] || s'.buffers[b] == s.buffers[b].(live := false)
  {
    assert PcOk(s, m.t);
    if Moves(s, m) { MovesContents(s, m, s'); }
  }

  /** The bytes of a closed buffer stay as they are for as long as any reference to it remains,
      whatever other threads open, write, close, release or reset meanwhile. */
  lemma {:induction false} BytesNeverChange(states: seq<State>, moves: seq<Move>, i: nat, k: nat, b: nat)
    requires Path(states, moves) && Init(states[0]) && i <= k < |states|
    requires b < |states[i].buffers| && states[i].buffers[b].closed
    requires b < |states[k].buffers| && states[k].buffers[b].live
    ensures states[i].buffers[b].chunk < |states[i].chunks| && states[k].buffers[b].chunk < |states[k].chunks|
    ensures var bu := states[i].buffers[b]; bu.offset + bu.write <= |states[i].chunks[bu.chunk].bytes|
    ensures var bu := states[k].buffers[b]; bu.offset + bu.write <= |states[k].chunks[bu.chunk].bytes|
    ensures Held(states[k], b) == Held(states[i], b)
  {
    RecordFixed(states, moves, i, k, b);
    RunInv(states, moves, i);
    RunInv(states, moves, k);
    assert BufferOk(states[i], b) && BufferOk(states[k], b);
  }

  /** Reset strikes only chunks that no live buffer refers to. */
  lemma {:induction false} ResetOnlyVacant(states: seq<State>, moves: seq<Move>, i: nat, t: nat)
    requires Path(states, moves) && Init(states[0]) && i < |moves| && moves[i] == Move.Move(t, Advance)
    requires t < |states[i].threads| && states[i].threads[t].pc.Reset?
    ensures states[i].threads[t].slot.Has? && !LiveIn(states[i], states[i].threads[t].slot.c)
  {
    RunInv(states, moves, i);
    assert PcOk(states[i], t);
  }

  predicate HeldBy(th: Thread, c: nat) { th.slot == Has(c) || th.hand == Has(c) || th.dying == Has(c) }

  /** Every chunk ever made is in the pool, or with exactly one thread, or kept only by its live
      buffers; none is lost, and one in the pool or changing hands has no live buffer. */
  lemma {:induction false} EveryChunkInOnePlace(states: seq<State>, moves: seq<Move>, i: nat, c: nat)
    requires Path(states, moves) && Init(states[0]) && i < |states| && c < |states[i].chunks|
    ensures var s := states[i];
            && (c in s.pool || (exists t :: 0 <= t < |s.threads| && HeldBy(s.threads[t], c)) || LiveIn(s, c))
            && (c in s.pool ==> !LiveIn(s, c) && forall t :: 0 <= t < |s.threads| ==> !HeldBy(s.threads[t], c))
            && (forall t, u :: 0 <= t < u < |s.threads| && HeldBy(s.threads[t], c) ==> !HeldBy(s.threads[u], c))
            && (forall t :: 0 <= t < |s.threads| ==>
                  (s.threads[t].hand == Has(c) || s.threads[t].dying == Has(c) ==> !LiveIn(s, c)))
  {
    RunInv(states, moves, i);
    var s := states[i];
    assert PlaceOk(s, c);
    forall t | 0 <= t < |s.threads|
      ensures HeldBy(s.threads[t], c) ==> s.places[c] in {InSlot(t), InHand(t), Dying(t)}
      ensures s.threads[t].hand == Has(c) || s.threads[t].dying == Has(c) ==> s.places[c] in {InHand(t), Dying(t)}
    {
      assert HandsOk(s, t);
    }
    if !s.places[c].Pooled? && !s.places[c].Retired? {
      assert HeldBy(s.threads[s.places[c].t], c);
    }
  }

  /** The process crashes on a step exactly when a buffer larger than a chunk was asked for, or one
      is closed with more than it was opened for. */
  lemma {:induction false} CrashesExactly(s: State, m: Move, s': State)
    requires Inv(s) && Step(s, m, s')
    ensures s'.crashed <==>
              || (m.c.Advance? && s.threads[m.t].pc.Carve? && s.threads[m.t].pc.size > CHUNK_SIZE)
              || (m.c.Close? && m.c.size > s.buffers[s.threads[m.t].pc.b].alloc)
  {
    var th := s.threads[m.t];
    assert PcOk(s, m.t) && HandsOk(s, m.t);
    if th.pc.Writing? {
      assert BufferOk(s, th.pc.b);
    } else if th.slot.Has? {
      SlotClosed(s, m.t);
    }
  }

  /** Opening a buffer while the thread's chunk is open is caught, whatever the state. */
  lemma {:induction false} OpenTwiceCrashes(s: State, t: nat)
    requires t < |s.threads| && s.threads[t].slot.Has? && s.threads[t].slot.c < |s.chunks|
    requires s.threads[t].pc.Check? || s.threads[t].pc.Carve?
    requires s.chunks[s.threads[t].slot.c].open
    ensures AdvanceOpen(s, t).crashed
  {
  }

  // ---------------------------------------------------------------- MakeSendBuffer

  const U16 := 0x1_0000

  datatype Making = Written | Crash | Overrun

  /** MakeSendBuffer for a payload of so many bytes: both sizes are 16 bits wide, the header is stored
      before the payload, and SerializeToArray refuses a payload larger than the size it is given. */
  function MakeSendBuffer(payload: nat): Making {
    var dataSize := payload % U16;
    var packetSize := (dataSize + HEADER_SIZE) % U16;
    if packetSize > CHUNK_SIZE then Crash          // in SendBufferChunk::Open
    else if HEADER_SIZE > packetSize then Overrun  // the header already
    else if payload > dataSize then Crash          // SerializeToArray answers false
    else if HEADER_SIZE + dataSize > packetSize then Overrun
    else Written
  }

  /** A payload is written inside its buffer exactly if it fits a chunk with its header; it runs past
      the buffer exactly if the 16-bit packet size wraps; and the process crashes on all others. */
  lemma {:induction false} MakesExactly(payload: nat)
    ensures MakeSendBuffer(payload).Written? <==> HEADER_SIZE + payload <= CHUNK_SIZE
    ensures MakeSendBuffer(payload).Overrun? <==> payload % U16 + HEADER_SIZE >= U16
  {
    assert payload < U16 ==> payload % U16 == payload;
  }

  // ---------------------------------------------------------------- the crash, concretely

  function Solo(chunks: seq<Chunk>, pool: seq<nat>, places: seq<Place>, th: Thread): State {
    State(chunks, pool, [th], [], false, places)
  }

  /** One thread on its way through Open with a size that no chunk has: the first chunk is too
      small, so it is exchanged for a second one, which is no larger. */
  function Oversized(size: nat, k: nat): State {
    var a, b := Has(0), Has(1);
    var none := NoChunk;
    if k == 0 then Solo([], [], [], Thread(none, none, none, Idle))
    else if k == 1 then Solo([], [], [], Thread(none, none, none, Start(size)))
    else if k == 2 then Solo([], [], [], Thread(none, none, none, Pop(size, false)))
    else if k == 3 then Solo([Blank()], [], [InHand(0)], Thread(none, a, none, Assign(size, false)))
    else if k == 4 then Solo([Blank()], [], [InSlot(0)], Thread(a, none, none, Reset(size, false)))
    else if k == 5 then Solo([Blank()], [], [InSlot(0)], Thread(a, none, none, Check(size)))
    else if k == 6 then Solo([Blank()], [], [InSlot(0)], Thread(a, none, none, Pop(size, true)))
    else if k == 7 then Solo([Blank(), Blank()], [], [InSlot(0), InHand(0)], Thread(a, b, none, Assign(size, true)))
    else if k == 8 then Solo([Blank(), Blank()], [], [Dying(0), InSlot(0)], Thread(b, none, a, PushOld(size, true)))
    else if k == 9 then Solo([Blank(), Blank()], [0], [Pooled, InSlot(0)], Thread(b, none, none, Reset(size, true)))
    else if k == 10 then Solo([Blank(), Blank()], [0], [Pooled, InSlot(0)], Thread(b, none, none, Carve(size)))
    else Solo([Blank(), Blank()], [0], [Pooled, InSlot(0)], Thread(b, none, none, Carve(size))).(crashed := true)
  }

  function OversizedMove(size: nat, k: nat): Move { Move.Move(0, if k == 0 then BeginOpen(size) else Advance) }

  lemma {:induction false} FirstChunk(size: nat, k: nat)
    requires size > CHUNK_SIZE && k < 6
    ensures Step(Oversized(size, k), OversizedMove(size, k), Oversized(size, k + 1))
  {
  }

  lemma {:induction false} SecondChunk(size: nat, k: nat)
    requires size > CHUNK_SIZE && 6 <= k < 11
    ensures Step(Oversized(size, k), OversizedMove(size, k), Oversized(size, k + 1))
  {
  }

  /** Every size above a chunk's has a run that crashes on it; MakeSendBuffer asks for up to 65535. */
  lemma {:induction false} OversizeCrashes(size: nat) returns (states: seq<State>, moves: seq<Move>)
    requires size > CHUNK_SIZE
    ensures Path(states, moves) && Init(states[0]) && |moves| > 0 && moves[0].c == BeginOpen(size)
    ensures states[|states| - 1].crashed
  {
    states := seq(12, k requires 0 <= k < 12 => Oversized(size, k));
    moves := seq(11, k requires 0 <= k < 11 => OversizedMove(size, k));
    forall k | 0 <= k < 11
      ensures Step(states[k], moves[k], states[k + 1])
    {
      if k < 6 { FirstChunk(size, k); } else { SecondChunk(size, k); }
    }
  }
}
