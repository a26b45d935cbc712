/** ServerCore/Lock: a recursive reader/writer spin lock built from four atomics.
    Every atomic operation is one step of one thread; any interleaving is allowed.
    Thread i carries LThreadId i + 1, as ThreadManager::InitTLS hands them out. */
module SpinLock {
  import opened Runs
  import opened Tally

  // The values of Lock::ELockState; a positive word counts outer read holds.
  const WRITE_STATE := -1
  const NOTHING_STATE := 0
  const NO_OWNER := -1

  // _writerPending, _writeRecursion and _readDepthArray are 16 bits wide.
  const U16 := 0x1_0000

  const THREAD_MAX_COUNT := 32

  function Inc16(n: nat): nat { if n == U16 - 1 then 0 else n + 1 }

  function Dec16(n: nat): nat { if n == 0 then U16 - 1 else n - 1 }

  datatype Hold = ReadHold | WriteHold

  /** The guards a thread has constructed and not yet destroyed, innermost first. */
  datatype Guards = NoGuard | Guard(hold: Hold, outer: Guards)

  function Writes(g: Guards): nat {
    match g
    case NoGuard => 0
    case Guard(k, outer) => Writes(outer) + (if k.WriteHold? then 1 else 0)
  }

  function Reads(g: Guards): nat {
    match g
    case NoGuard => 0
    case Guard(k, outer) => Reads(outer) + (if k.ReadHold? then 1 else 0)
  }

  /** No write sits on top of outer reads only. */
  predicate Nested(g: Guards) {
    match g
    case NoGuard => true
    case Guard(k, outer) => Nested(outer) && (k.WriteHold? && outer.Guard? ==> Writes(outer) > 0)
  }

  /** Where a thread stands in the code of Lock: the next atomic operation it will do. */
  datatype Pc =
    | Running            // outside the lock's own code
    | WriteEnter         // load _ownerThreadId
    | WriteAgain         // _writeRecursion.fetch_add(1)
    | WriteAnnounce      // _writerPending.fetch_add(1)
    | WriteSpin          // CAS _lockState NOTHING -> WRITE
    | WriteStoreOwner
    | WriteStoreDepth
    | WriteRetract       // _writerPending.fetch_sub(1)
    | UnlockWriteCheck   // load _ownerThreadId
    | UnlockWriteCount   // _writeRecursion.fetch_sub(1)
    | UnlockWriteDisown  // _ownerThreadId.store(-1)
    | UnlockWriteFree    // _lockState.exchange(NOTHING)
    | ReadEnter          // load _ownerThreadId
    | ReadPoll           // load _writerPending
    | ReadSample         // load _lockState
    | ReadTry(expected: int) // CAS _lockState expected -> expected + 1
    | UnlockReadCheck    // load _ownerThreadId
    | UnlockReadCount    // _lockState.fetch_sub(1)

  /** The lock's four atomics, and whether a CRASH branch has been taken. */
  datatype Words = Words(
    pending: nat,      // _writerPending
    recursion: nat,    // _writeRecursion
    word: int,         // _lockState
    owner: int,        // _ownerThreadId
    crashed: bool)

  /** readDepth: the thread's cell of _readDepthArray, which only this thread touches. */
  datatype Thread = Thread(pc: Pc, holds: Guards, readDepth: nat)

  datatype State = State(debug: bool, w: Words, threads: seq<Thread>)

  /** What a running thread does next to this lock: construct a guard or destroy its innermost one. */
  datatype Call = CallWriteLock | CallReadLock | DropGuard

  /** A choice of scheduler and callers: which thread moves, and what it asks for if it is Running. */
  datatype Move = Move(t: nat, c: Call)

  function Id(t: nat): int { t + 1 }

  /** ValidateThreadId, which only a debug build has, crashes for this id. */
  predicate Invalid(debug: bool, me: int) { debug && (me < 0 || me >= THREAD_MAX_COUNT) }

  /** The guards' discipline.  A guard is destroyed only if one exists; no thread nests
      0xFFFF writes (nor, where they are counted, reads); a debug build forbids a write
      inside a read inside a write, and wants a valid id for every read and nested write. */
  predicate Permitted(debug: bool, me: int, th: Thread, c: Call) {
    th.pc.Running? ==>
      match c
      case DropGuard => th.holds.Guard?
      case CallReadLock => !Invalid(debug, me) && (debug ==> Reads(th.holds) < U16 - 1)
      case CallWriteLock =>
        && Writes(th.holds) < U16 - 1
        && (debug && Writes(th.holds) > 0 ==> Reads(th.holds) == 0 && !Invalid(debug, me))
  }

  function Acquired(th: Thread, k: Hold, pc: Pc): Thread {
    th.(pc := pc, holds := Guard(k, th.holds))
  }

  function AcquiredRead(debug: bool, th: Thread): Thread {
    var th' := Acquired(th, ReadHold, Running);
    if debug then th'.(readDepth := Inc16(th.readDepth)) else th'
  }

  function Released(th: Thread): Thread {
    if th.holds.NoGuard? then th.(pc := Running)
    else th.(pc := Running, holds := th.holds.outer)
  }

  /** Entering or leaving a guard, from outside the lock's code. */
  function Begin(debug: bool, w: Words, me: int, th: Thread, c: Call): (Words, Thread) {
    match c
    case CallWriteLock => (w, th.(pc := WriteEnter))
    case CallReadLock => (w, th.(pc := ReadEnter))
    case DropGuard =>
      if th.holds.NoGuard? then (w, th)
      else if th.holds.hold.WriteHold? then (w, th.(pc := UnlockWriteCheck))
      else if !debug then (w, th.(pc := UnlockReadCheck))
      else if Invalid(debug, me) || th.readDepth == 0 then (w.(crashed := true), th)
      else (w, th.(pc := UnlockReadCheck, readDepth := th.readDepth - 1))
  }

  /** One atomic operation of the thread with id me; c matters only when it is Running. */
  function Act(debug: bool, w: Words, me: int, th: Thread, c: Call): (Words, Thread) {
    if w.crashed then (w, th) else
    match th.pc
    case Running => Begin(debug, w, me, th, c)
    case WriteEnter =>
      if w.owner != me then (w, th.(pc := WriteAnnounce))
      else if Invalid(debug, me) || (debug && th.readDepth != 0) then (w.(crashed := true), th)
      else (w, th.(pc := WriteAgain))
    case WriteAgain =>
      (w.(recursion := Inc16(w.recursion)), Acquired(th, WriteHold, Running))
    case WriteAnnounce => (w.(pending := Inc16(w.pending)), th.(pc := WriteSpin))
    case WriteSpin =>
      if w.word == NOTHING_STATE
      then (w.(word := WRITE_STATE), Acquired(th, WriteHold, WriteStoreOwner))
      else (w, th)
    case WriteStoreOwner => (w.(owner := me), th.(pc := WriteStoreDepth))
    case WriteStoreDepth => (w.(recursion := 1), th.(pc := WriteRetract))
    case WriteRetract => (w.(pending := Dec16(w.pending)), th.(pc := Running))
    case UnlockWriteCheck =>
      if w.owner != me then (w.(crashed := true), th) else (w, th.(pc := UnlockWriteCount))
    case UnlockWriteCount =>
      var w' := w.(recursion := Dec16(w.recursion));
      if w.recursion == 0 then (w'.(crashed := true), th)
      else if w.recursion == 1 then (w', th.(pc := UnlockWriteDisown))
      else (w', Released(th))
    case UnlockWriteDisown => (w.(owner := NO_OWNER), th.(pc := UnlockWriteFree))
    case UnlockWriteFree => (w.(word := NOTHING_STATE), Released(th))
    case ReadEnter =>
      if w.owner != me then (w, th.(pc := ReadPoll))
      else if Invalid(debug, me) then (w.(crashed := true), th)
      else (w, AcquiredRead(debug, th))
    case ReadPoll => if w.pending > 0 then (w, th) else (w, th.(pc := ReadSample))
    case ReadSample =>
      if w.word == WRITE_STATE then (w, th.(pc := ReadPoll)) else (w, th.(pc := ReadTry(w.word)))
    case ReadTry(expected) =>
      if w.word != expected then (w, th.(pc := ReadPoll))
      else if Invalid(debug, me) then (w.(word := expected + 1, crashed := true), th.(pc := Running))
      else (w.(word := expected + 1), AcquiredRead(debug, th))
    case UnlockReadCheck =>
      if w.owner == me then (w, Released(th)) else (w, th.(pc := UnlockReadCount))
    case UnlockReadCount =>
      var w' := w.(word := w.word - 1);
      if w.word <= 0 then (w'.(crashed := true), th) else (w', Released(th))
  }

  predicate Init(s: State) {
    && |s.threads| < U16
    && s.w == Words(0, 0, NOTHING_STATE, NO_OWNER, false)
    && forall i :: 0 <= i < |s.threads| ==> s.threads[i] == Thread(Running, NoGuard, 0)
  }

  ghost predicate Step(s: State, m: Move, s': State) {
    && m.t < |s.threads|
    && Permitted(s.debug, Id(m.t), s.threads[m.t], m.c)
    && var (w', th') := Act(s.debug, s.w, Id(m.t), s.threads[m.t], m.c);
       s' == State(s.debug, w', s.threads[m.t := th'])
  }

  /** states[i] --moves[i]--> states[i + 1], for every i. */
  ghost predicate Path(states: seq<State>, moves: seq<Move>) { Linked(Step, states, moves) }

  // ---------------------------------------------------------------- the invariant

  predicate IsWriter(th: Thread) { Writes(th.holds) > 0 }

  /** _ownerThreadId names this thread: it writes, and is past the store and before the reset. */
  predicate Owns(th: Thread) {
    IsWriter(th) && !th.pc.WriteStoreOwner? && !th.pc.UnlockWriteFree?
  }

  function WriterFlag(th: Thread): nat { if IsWriter(th) then 1 else 0 }

  function OuterReads(th: Thread): nat { if IsWriter(th) then 0 else Reads(th.holds) }

  function Announced(th: Thread): nat {
    if th.pc.WriteSpin? || th.pc.WriteStoreOwner? || th.pc.WriteStoreDepth? || th.pc.WriteRetract?
    then 1 else 0
  }

  predicate DepthSettled(pc: Pc) {
    !(pc.WriteStoreOwner? || pc.WriteStoreDepth? || pc.UnlockWriteDisown? || pc.UnlockWriteFree?)
  }

  /** What its program point says about a thread's guards. */
  predicate PcOk(debug: bool, th: Thread) {
    var pc, h := th.pc, th.holds;
    && (pc.WriteEnter? ==>
          Writes(h) < U16 - 1 && (debug && Writes(h) > 0 ==> Reads(h) == 0))
    && (pc.WriteAgain? ==> IsWriter(th) && Writes(h) < U16 - 1)
    && (pc.WriteAnnounce? || pc.WriteSpin? ==> !IsWriter(th))
    && (pc.WriteStoreOwner? || pc.WriteStoreDepth? || pc.WriteRetract? ==> h == Guard(WriteHold, NoGuard))
    && (pc.UnlockWriteDisown? || pc.UnlockWriteFree? ==> h == Guard(WriteHold, NoGuard))
    && (pc.UnlockWriteCheck? || pc.UnlockWriteCount? ==> h.Guard? && h.hold.WriteHold?)
    && (debug && (pc.ReadEnter? || pc.ReadPoll? || pc.ReadSample? || pc.ReadTry?) ==> Reads(h) < U16 - 1)
    && (pc.ReadPoll? || pc.ReadSample? || pc.ReadTry? || pc.UnlockReadCount? ==> !IsWriter(th))
    && (pc.ReadTry? ==> pc.expected >= 0)
    && (pc.UnlockReadCheck? || pc.UnlockReadCount? ==> h.Guard? && h.hold.ReadHold?)
  }

  /** The debug depth counter, which ReadUnLock lowers before the hold itself goes. */
  predicate DepthOk(th: Thread) {
    && th.readDepth < U16
    && th.readDepth == Reads(th.holds)
         - (if th.pc.UnlockReadCheck? || th.pc.UnlockReadCount? then 1 else 0)
  }

  /** One thread's guards against its own program point. */
  predicate GuardsOk(debug: bool, th: Thread) {
    && Nested(th.holds)
    && Writes(th.holds) < U16
    && PcOk(debug, th)
    && (debug ==> DepthOk(th))
  }

  /** One thread against the shared words. */
  predicate SharedOk(w: Words, me: int, th: Thread) {
    && (w.owner == me <==> Owns(th))
    && (IsWriter(th) && DepthSettled(th.pc) ==> w.recursion == Writes(th.holds))
  }

  predicate InReadCode(pc: Pc) {
    || pc.ReadEnter? || pc.ReadPoll? || pc.ReadSample? || pc.ReadTry? || pc.UnlockReadCheck?
    || pc.UnlockReadCount?
  }

  /** A thread whose id the debug build would reject has only ever taken plain write locks. */
  predicate IdOk(debug: bool, me: int, th: Thread) {
    Invalid(debug, me) ==>
      && Reads(th.holds) == 0 && !InReadCode(th.pc)
      && (th.pc.WriteEnter? || th.pc.WriteAgain? ==> !IsWriter(th))
  }

  predicate ThreadOk(debug: bool, w: Words, me: int, th: Thread) {
    GuardsOk(debug, th) && SharedOk(w, me, th) && IdOk(debug, me, th)
  }

  /** The shared words against the totals over all threads: announced writers, writers, outer reads. */
  predicate WordsOk(w: Words, announced: int, writers: int, outer: int) {
    && !w.crashed
    && w.pending == announced
    && 0 <= writers <= 1
    && (if writers == 1 then w.word == WRITE_STATE && outer == 0 else w.word == outer)
  }

  predicate Inv(s: State) {
    && |s.threads| < U16
    && WordsOk(s.w, Sum(s.threads, Announced), Sum(s.threads, WriterFlag), Sum(s.threads, OuterReads))
    && forall t :: 0 <= t < |s.threads| ==> ThreadOk(s.debug, s.w, Id(t), s.threads[t])
  }

  lemma {:induction false} InitInv(s: State)
    requires Init(s)
    ensures Inv(s)
  {
    SumZero(s.threads, Announced);
    SumZero(s.threads, WriterFlag);
    SumZero(s.threads, OuterReads);
  }

  lemma {:induction false} OneWriter(s: State, i: nat, j: nat)
    requires Inv(s) && i < |s.threads| && j < |s.threads|
    requires IsWriter(s.threads[i]) && IsWriter(s.threads[j])
    ensures i == j
  {
    if i < j {
      SumPair(s.threads, i, j, WriterFlag);
    } else if j < i {
      SumPair(s.threads, j, i, WriterFlag);
    }
  }

  predicate InWriteCode(pc: Pc) {
    || pc.WriteEnter? || pc.WriteAgain? || pc.WriteAnnounce? || pc.WriteSpin? || pc.WriteStoreOwner?
    || pc.WriteStoreDepth? || pc.WriteRetract? || pc.UnlockWriteCheck? || pc.UnlockWriteCount?
    || pc.UnlockWriteDisown? || pc.UnlockWriteFree?
  }

  /** No CRASH branch is open to a consistent thread. */
  lemma {:induction false} NoCrash(debug: bool, w: Words, me: int, th: Thread, c: Call, n: int, r: int)
    requires Permitted(debug, me, th, c) && ThreadOk(debug, w, me, th) && WordsOk(w, w.pending, n, r)
    requires WriterFlag(th) <= n && OuterReads(th) <= r
    ensures !Act(debug, w, me, th, c).0.crashed
  {
  }

  /** The words follow the totals, whatever the mover does; a, n and r are the totals before. */
  lemma {:induction false} WordsKept(debug: bool, w: Words, me: int, th: Thread, c: Call, a: int, n: int, r: int)
    requires Permitted(debug, me, th, c) && ThreadOk(debug, w, me, th) && WordsOk(w, a, n, r)
    requires Announced(th) <= a < U16 - 1 + Announced(th) && WriterFlag(th) <= n && OuterReads(th) <= r
    ensures var (w', th') := Act(debug, w, me, th, c);
            WordsOk(w', a - Announced(th) + Announced(th'), n - WriterFlag(th) + WriterFlag(th'),
                    r - OuterReads(th) + OuterReads(th'))
  {
    NoCrash(debug, w, me, th, c, n, r);
  }

  lemma {:induction false} WriteGuardsKept(debug: bool, w: Words, me: int, th: Thread, c: Call)
    requires InWriteCode(th.pc)
    requires ThreadOk(debug, w, me, th) && !w.crashed
    requires w.word == NOTHING_STATE ==> OuterReads(th) == 0
    ensures GuardsOk(debug, Act(debug, w, me, th, c).1)
  {
  }

  lemma {:induction false} ReadTaken(debug: bool, th: Thread)
    requires th.pc.ReadEnter? || th.pc.ReadTry?
    requires GuardsOk(debug, th)
    ensures GuardsOk(debug, AcquiredRead(debug, th))
  {
  }

  lemma {:induction false} ReadGuardsKept(debug: bool, w: Words, me: int, th: Thread, c: Call)
    requires !InWriteCode(th.pc) && !th.pc.Running?
    requires ThreadOk(debug, w, me, th) && !w.crashed && w.word >= WRITE_STATE
    ensures GuardsOk(debug, Act(debug, w, me, th, c).1)
  {
    if th.pc.ReadEnter? || th.pc.ReadTry? { ReadTaken(debug, th); }
  }

  lemma {:induction false} BeginGuardsKept(debug: bool, w: Words, me: int, th: Thread, c: Call)
    requires th.pc.Running? && Permitted(debug, me, th, c) && GuardsOk(debug, th)
    ensures GuardsOk(debug, Begin(debug, w, me, th, c).1)
  {
  }

  lemma {:induction false} IdKept(debug: bool, w: Words, me: int, th: Thread, c: Call)
    requires Permitted(debug, me, th, c) && ThreadOk(debug, w, me, th) && !w.crashed
    ensures IdOk(debug, me, Act(debug, w, me, th, c).1)
  {
  }

  /** The mover stays consistent with the words it leaves behind. */
  lemma {:induction false} MoverKept(debug: bool, w: Words, me: int, th: Thread, c: Call)
    requires ThreadOk(debug, w, me, th) && me != NO_OWNER
    ensures var (w', th') := Act(debug, w, me, th, c); SharedOk(w', me, th')
  {
    if InWriteCode(th.pc) { WriterKept(debug, w, me, th, c); } else { ReaderKept(debug, w, me, th, c); }
  }

  lemma {:induction false} WriterKept(debug: bool, w: Words, me: int, th: Thread, c: Call)
    requires ThreadOk(debug, w, me, th) && me != NO_OWNER && InWriteCode(th.pc)
    ensures var (w', th') := Act(debug, w, me, th, c); SharedOk(w', me, th')
  {
  }

  lemma {:induction false} ReaderKept(debug: bool, w: Words, me: int, th: Thread, c: Call)
    requires ThreadOk(debug, w, me, th) && !InWriteCode(th.pc)
    ensures var (w', th') := Act(debug, w, me, th, c); SharedOk(w', me, th')
  {
  }

  /** The owner and recursion words are written only by a writer, so nobody else notices. */
  lemma {:induction false} OtherKept(debug: bool, w: Words, me: int, th: Thread, c: Call, you: int, other: Thread)
    requires ThreadOk(debug, w, me, th) && SharedOk(w, you, other)
    requires me != you && you != NO_OWNER && !(IsWriter(th) && IsWriter(other))
    ensures SharedOk(Act(debug, w, me, th, c).0, you, other)
  {
  }

  lemma {:induction false} Preserve(s: State, m: Move, s': State)
    requires Inv(s) && Step(s, m, s')
    ensures Inv(s')
  {
    var t, th, th' := m.t, s.threads[m.t], s'.threads[m.t];
    SumUpdate(s.threads, t, th', Announced);
    SumUpdate(s.threads, t, th', WriterFlag);
    SumUpdate(s.threads, t, th', OuterReads);
    SumAtLeast(s.threads, t, Announced);
    SumAtLeast(s.threads, t, WriterFlag);
    SumAtLeast(s.threads, t, OuterReads);
    SumBound(s.threads[t := Thread(WriteSpin, NoGuard, 0)], Announced, 1);
    SumUpdate(s.threads, t, Thread(WriteSpin, NoGuard, 0), Announced);
    WordsKept(s.debug, s.w, Id(t), th, m.c,
              Sum(s.threads, Announced), Sum(s.threads, WriterFlag), Sum(s.threads, OuterReads));
    if InWriteCode(th.pc) {
      WriteGuardsKept(s.debug, s.w, Id(t), th, m.c);
    } else if th.pc.Running? {
      BeginGuardsKept(s.debug, s.w, Id(t), th, m.c);
    } else {
      ReadGuardsKept(s.debug, s.w, Id(t), th, m.c);
    }
    IdKept(s.debug, s.w, Id(t), th, m.c);
    MoverKept(s.debug, s.w, Id(t), th, m.c);
    forall j | 0 <= j < |s.threads| && j != t
      ensures ThreadOk(s'.debug, s'.w, Id(j), s'.threads[j])
    {
      if IsWriter(th) && IsWriter(s.threads[j]) {
        OneWriter(s, t, j);
      }
      OtherKept(s.debug, s.w, Id(t), th, m.c, Id(j), s.threads[j]);
    }
  }

  /** The invariant holds throughout every run. */
  lemma {:induction false} RunInv(states: seq<State>, moves: seq<Move>, i: nat)
    requires Path(states, moves) && Inv(states[0]) && i < |states|
    ensures Inv(states[i])
  {
    if i > 0 {
      RunInv(states, moves, i - 1);
      Preserve(states[i - 1], moves[i - 1], states[i]);
    }
  }

  // ---------------------------------------------------------------- refinement

  /** The lock a caller reasons about: each thread's guards, and nothing else. */
  type Spec = seq<Guards>

  function Abstract(s: State): (a: Spec)
    ensures |a| == |s.threads|
    ensures forall i :: 0 <= i < |a| ==> a[i] == s.threads[i].holds
  {
    seq(|s.threads|, i requires 0 <= i < |s.threads| => s.threads[i].holds)
  }

  /** A thread may start to write if nobody else holds anything and it does not itself merely
      read; it may start to read unless somebody else writes. */
  predicate MayAcquire(a: Spec, t: nat, k: Hold)
    requires t < |a|
  {
    if k.WriteHold?
    then (forall j :: 0 <= j < |a| && j != t ==> a[j].NoGuard?) && (a[t].Guard? ==> Writes(a[t]) > 0)
    else forall j :: 0 <= j < |a| && j != t ==> Writes(a[j]) == 0
  }

  predicate SpecStep(a: Spec, t: nat, a': Spec) {
    && t < |a|
    && (|| a' == a
        || (a[t].Guard? && a' == a[t := a[t].outer])
        || (MayAcquire(a, t, ReadHold) && a' == a[t := Guard(ReadHold, a[t])])
        || (MayAcquire(a, t, WriteHold) && a' == a[t := Guard(WriteHold, a[t])]))
  }

  /** What the totals say about each pair of threads. */
  lemma {:induction false} WordSays(s: State, t: nat)
    requires Inv(s) && t < |s.threads|
    ensures s.w.word == NOTHING_STATE ==> s.threads[t].holds.NoGuard?
    ensures s.w.word >= 0 ==> !IsWriter(s.threads[t])
    ensures s.w.word >= 0 ==> Reads(s.threads[t].holds) <= s.w.word
    ensures IsWriter(s.threads[t]) ==>
              forall j :: 0 <= j < |s.threads| && j != t ==> s.threads[j].holds.NoGuard?
  {
    SumAtLeast(s.threads, t, WriterFlag);
    SumAtLeast(s.threads, t, OuterReads);
    NothingHeld(s.threads[t].holds);
    if IsWriter(s.threads[t]) {
      forall j | 0 <= j < |s.threads| && j != t
        ensures s.threads[j].holds.NoGuard?
      {
        if IsWriter(s.threads[j]) { OneWriter(s, t, j); }
        SumAtLeast(s.threads, j, OuterReads);
        NothingHeld(s.threads[j].holds);
      }
    }
  }

  lemma {:induction false} NothingHeld(g: Guards)
    ensures g.NoGuard? <==> Writes(g) == 0 && Reads(g) == 0
  {
  }

  /** How one operation changes the mover's guards, and what licenses a new one. */
  lemma {:induction false} HoldsEffect(debug: bool, w: Words, me: int, th: Thread, c: Call)
    requires ThreadOk(debug, w, me, th) && !w.crashed && !Act(debug, w, me, th, c).0.crashed
    ensures var h := Act(debug, w, me, th, c).1.holds;
            || h == th.holds
            || (th.holds.Guard? && h == th.holds.outer)
            || (h == Guard(ReadHold, th.holds) && (IsWriter(th) || w.word >= 0))
            || (h == Guard(WriteHold, th.holds) && (IsWriter(th) || w.word == NOTHING_STATE))
  {
  }

  /** Every atomic operation of the lock is a step of the abstract lock or changes nothing in it. */
  lemma {:induction false} Refines(s: State, m: Move, s': State)
    requires Inv(s) && Step(s, m, s')
    ensures SpecStep(Abstract(s), m.t, Abstract(s'))
  {
    Preserve(s, m, s');
    HoldsEffect(s.debug, s.w, Id(m.t), s.threads[m.t], m.c);
    assert Abstract(s') == Abstract(s)[m.t := s'.threads[m.t].holds];
    forall j | 0 <= j < |s.threads| { WordSays(s, j); }
    assert Abstract(s)[m.t := s.threads[m.t].holds] == Abstract(s);
  }

  /** In every state of every run from a fresh lock: no CRASH branch was taken; a writer
      excludes every other holder; the word is -1 exactly while someone writes and is otherwise
      the number of read guards held; so it is 0 exactly when nobody holds the lock. */
  lemma {:induction false} SafeInEveryRun(states: seq<State>, moves: seq<Move>, i: nat)
    requires Path(states, moves) && Init(states[0]) && i < |states|
    ensures var s := states[i];
            && !s.w.crashed
            && (forall t, j :: 0 <= t < |s.threads| && 0 <= j < |s.threads| ==>
                  (t != j && IsWriter(s.threads[t]) ==> s.threads[j].holds.NoGuard?))
            && (s.w.word == WRITE_STATE <==> exists t :: 0 <= t < |s.threads| && IsWriter(s.threads[t]))
            && (s.w.word != WRITE_STATE ==> s.w.word == Sum(s.threads, OuterReads))
            && (s.w.word == NOTHING_STATE
                <==> forall t :: 0 <= t < |s.threads| ==> s.threads[t].holds.NoGuard?)
  {
    InitInv(states[0]);
    RunInv(states, moves, i);
    var s := states[i];
    forall t | 0 <= t < |s.threads| { WordSays(s, t); }
    if Sum(s.threads, WriterFlag) == 1 {
      var t := SumWitness(s.threads, WriterFlag);
      assert IsWriter(s.threads[t]);
    }
    if forall t :: 0 <= t < |s.threads| ==> s.threads[t].holds.NoGuard? {
      SumZero(s.threads, WriterFlag);
      SumZero(s.threads, OuterReads);
    }
  }

  /** Every run of the four-atomic lock, seen through the guards, is a run of the abstract lock. */
  lemma {:induction false} RefinesInEveryRun(states: seq<State>, moves: seq<Move>, i: nat)
    requires Path(states, moves) && Init(states[0]) && i < |moves|
    ensures SpecStep(Abstract(states[i]), moves[i].t, Abstract(states[i + 1]))
  {
    InitInv(states[0]);
    RunInv(states, moves, i);
    Refines(states[i], moves[i], states[i + 1]);
  }

  // ---------------------------------------------------------------- alone

  /** k successive operations of one thread, each asking for c when Running. */
  function Alone(debug: bool, w: Words, me: int, th: Thread, c: Call, k: nat): (Words, Thread)
    decreases k
  {
    if k == 0 then (w, th)
    else var (w', th') := Act(debug, w, me, th, c); Alone(debug, w', me, th', c, k - 1)
  }

  /** WriteLock on a free lock, undisturbed: it is taken, and the announcement withdrawn. */
  lemma {:induction false} WriteAlone(debug: bool, w: Words, me: int, th: Thread, k: nat)
    requires !w.crashed && w.word == NOTHING_STATE && w.owner != me && w.pending < U16 - 1
    requires th.pc.Running? && th.holds.NoGuard? && k == 7
    ensures Alone(debug, w, me, th, CallWriteLock, k)
      == (w.(word := WRITE_STATE, owner := me, recursion := 1), th.(holds := Guard(WriteHold, NoGuard)))
  {
    var w1 := w.(pending := w.pending + 1);
    var w2, th2 := w1.(word := WRITE_STATE), th.(holds := Guard(WriteHold, NoGuard));
    var w3 := w2.(owner := me);
    var w4 := w3.(recursion := 1);
    assert Alone(debug, w, me, th, CallWriteLock, k)
        == Alone(debug, w, me, th.(pc := WriteEnter), CallWriteLock, k - 1)
        == Alone(debug, w, me, th.(pc := WriteAnnounce), CallWriteLock, k - 2)
        == Alone(debug, w1, me, th.(pc := WriteSpin), CallWriteLock, k - 3)
        == Alone(debug, w2, me, th2.(pc := WriteStoreOwner), CallWriteLock, k - 4)
        == Alone(debug, w3, me, th2.(pc := WriteStoreDepth), CallWriteLock, k - 5)
        == Alone(debug, w4, me, th2.(pc := WriteRetract), CallWriteLock, k - 6)
        == Alone(debug, w4.(pending := w.pending), me, th2, CallWriteLock, k - 7);
  }

  /** The outermost unlock frees the lock. */
  lemma {:induction false} UnlockAlone(debug: bool, w: Words, me: int, th: Thread, k: nat)
    requires !w.crashed && w.owner == me && w.recursion == 1
    requires th.pc.Running? && th.holds == Guard(WriteHold, NoGuard) && k == 5
    ensures Alone(debug, w, me, th, DropGuard, k)
      == (w.(word := NOTHING_STATE, owner := NO_OWNER, recursion := 0), th.(holds := NoGuard))
  {
    var w1 := w.(recursion := 0);
    var w2 := w1.(owner := NO_OWNER);
    assert Alone(debug, w, me, th, DropGuard, k)
        == Alone(debug, w, me, th.(pc := UnlockWriteCheck), DropGuard, k - 1)
        == Alone(debug, w, me, th.(pc := UnlockWriteCount), DropGuard, k - 2)
        == Alone(debug, w1, me, th.(pc := UnlockWriteDisown), DropGuard, k - 3)
        == Alone(debug, w2, me, th.(pc := UnlockWriteFree), DropGuard, k - 4)
        == Alone(debug, w2.(word := NOTHING_STATE), me, th.(holds := NoGuard), DropGuard, k - 5);
  }

  /** Together: a lock that was free is free again. */
  lemma {:induction false} WriteThenUnlock(debug: bool, w: Words, me: int, th: Thread)
    requires !w.crashed && w.word == NOTHING_STATE && w.owner == NO_OWNER != me && w.pending < U16 - 1
    requires th.pc.Running? && th.holds.NoGuard?
    ensures var (w1, th1) := Alone(debug, w, me, th, CallWriteLock, 7);
            && w1.word == WRITE_STATE && w1.owner == me && th1.holds == Guard(WriteHold, NoGuard)
            && Alone(debug, w1, me, th1, DropGuard, 5) == (w.(recursion := 0), th)
  {
    WriteAlone(debug, w, me, th, 7);
    var (w1, th1) := Alone(debug, w, me, th, CallWriteLock, 7);
    UnlockAlone(debug, w1, me, th1, 5);
  }

  /** A nested WriteLock counts one more, and its unlock one less; neither frees the lock. */
  lemma {:induction false} NestedAlone(debug: bool, w: Words, me: int, th: Thread)
    requires ThreadOk(debug, w, me, th) && !w.crashed && th.pc.Running? && IsWriter(th)
    requires Permitted(debug, me, th, CallWriteLock)
    ensures var (w1, th1) := Alone(debug, w, me, th, CallWriteLock, 3);
            && (w1, th1) == (w.(recursion := w.recursion + 1), th.(holds := Guard(WriteHold, th.holds)))
            && Alone(debug, w1, me, th1, DropGuard, 3) == (w, th)
  {
  }

  /** A ReadLock inside a write changes none of the words, and its unlock undoes it. */
  lemma {:induction false} InnerReadAlone(debug: bool, w: Words, me: int, th: Thread)
    requires ThreadOk(debug, w, me, th) && !w.crashed && th.pc.Running? && IsWriter(th)
    requires Permitted(debug, me, th, CallReadLock)
    ensures var (w1, th1) := Alone(debug, w, me, th, CallReadLock, 2);
            && w1 == w && th1.holds == Guard(ReadHold, th.holds) && th1.pc.Running?
            && Alone(debug, w1, me, th1, DropGuard, 2) == (w, th)
  {
  }

  lemma {:induction false} OuterReadTakes(debug: bool, w: Words, me: int, th: Thread, k: nat)
    requires ThreadOk(debug, w, me, th) && !w.crashed && th.pc.Running? && !IsWriter(th)
    requires w.pending == 0 && w.word >= 0 && k == 5
    ensures var (w', th') := Alone(debug, w, me, th, CallReadLock, k);
            && w' == w.(word := w.word + 1, crashed := Invalid(debug, me))
            && (!w'.crashed ==> th' == AcquiredRead(debug, th))
  {
    assert Alone(debug, w, me, th, CallReadLock, k)
        == Alone(debug, w, me, th.(pc := ReadEnter), CallReadLock, k - 1)
        == Alone(debug, w, me, th.(pc := ReadPoll), CallReadLock, k - 2)
        == Alone(debug, w, me, th.(pc := ReadSample), CallReadLock, k - 3)
        == Alone(debug, w, me, th.(pc := ReadTry(w.word)), CallReadLock, k - 4);
  }

  /** The three operations of unlocking an outer read. */
  lemma {:induction false} OuterReadLeaves(debug: bool, w: Words, me: int, th: Thread)
    requires !w.crashed && th.pc.Running? && w.owner != me && w.word > 0
    requires th.holds.Guard? && th.holds.hold.ReadHold?
    ensures var (w', th') := Alone(debug, w, me, th, DropGuard, 3);
            && (w'.crashed <==> debug && (Invalid(debug, me) || th.readDepth == 0))
            && (!w'.crashed ==>
                  && w' == w.(word := w.word - 1)
                  && th' == th.(holds := th.holds.outer, readDepth := th.readDepth - (if debug then 1 else 0)))
  {
  }

  /** An outer ReadLock that no writer stands in the way of adds one to the state word, and its unlock
      takes it away again. */
  lemma {:induction false} OuterReadAlone(debug: bool, w: Words, me: int, th: Thread)
    requires ThreadOk(debug, w, me, th) && !w.crashed && th.pc.Running? && !IsWriter(th)
    requires w.pending == 0 && w.word >= 0 && Permitted(debug, me, th, CallReadLock)
    ensures var (w1, th1) := Alone(debug, w, me, th, CallReadLock, 5);
            && w1 == w.(word := w.word + 1) && th1.holds == Guard(ReadHold, th.holds) && th1.pc.Running?
            && Alone(debug, w1, me, th1, DropGuard, 3) == (w, th)
  {
    OuterReadTakes(debug, w, me, th, 5);
    var (w1, th1) := Alone(debug, w, me, th, CallReadLock, 5);
    OuterReadLeaves(debug, w1, me, th1);
  }

  /** A reader that loses the race for the state word, or finds a writer there, goes back to polling
      for writers; the loser gets in with its next attempt. */
  lemma {:induction false} ReadRetries(debug: bool, w: Words, me: int, th: Thread, c: Call)
    requires !w.crashed && (th.pc.ReadSample? || th.pc.ReadTry?)
    ensures (if th.pc.ReadSample? then w.word == WRITE_STATE else w.word != th.pc.expected) ==>
              Act(debug, w, me, th, c) == (w, th.(pc := ReadPoll))
    ensures th.pc.ReadTry? && w.word != th.pc.expected && w.word >= 0 && w.pending == 0 && !Invalid(debug, me) ==>
              Alone(debug, w, me, th, c, 4) == (w.(word := w.word + 1), AcquiredRead(debug, th))
  {
  }

  // ---------------------------------------------------------------- the discipline is exact

  /** An unlock without its lock is caught: of a write by a thread that is not the owner or whose count
      is 0, and of a read when no read is counted. */
  lemma {:induction false} MisuseCrashes(debug: bool, w: Words, me: int, th: Thread, c: Call)
    requires !w.crashed
    ensures th.pc.UnlockWriteCheck? ==> (Act(debug, w, me, th, c).0.crashed <==> w.owner != me)
    ensures th.pc.UnlockWriteCount? ==> (Act(debug, w, me, th, c).0.crashed <==> w.recursion == 0)
    ensures th.pc.UnlockReadCount? ==> (Act(debug, w, me, th, c).0.crashed <==> w.word <= 0)
  {
  }

  /** A writer that asks for one more WriteLock completes it and its unlock without a crash exactly
      when the discipline allows it: fewer than 0xFFFF writes nested or else the recursion count
      wraps to 0 and the matching unlock crashes; and, in a debug build, a valid id and no read
      guard of its own. */
  lemma {:induction false} DisciplineExact(debug: bool, w: Words, me: int, th: Thread)
    requires ThreadOk(debug, w, me, th) && !w.crashed && th.pc.Running? && IsWriter(th)
    ensures var (w1, th1) := Alone(debug, w, me, th, CallWriteLock, 3);
            var (w2, th2) := Alone(debug, w1, me, th1, DropGuard, 3);
            !w2.crashed <==> Permitted(debug, me, th, CallWriteLock)
  {
  }

  /** So with a ReadLock inside a write: in a debug build, a valid id and fewer than 0xFFFF reads. */
  lemma {:induction false} InnerReadExact(debug: bool, w: Words, me: int, th: Thread)
    requires ThreadOk(debug, w, me, th) && !w.crashed && th.pc.Running? && IsWriter(th)
    ensures var (w1, th1) := Alone(debug, w, me, th, CallReadLock, 2);
            var (w2, th2) := Alone(debug, w1, me, th1, DropGuard, 2);
            !w2.crashed <==> Permitted(debug, me, th, CallReadLock)
  {
  }

  /** And with an outer ReadLock, that no writer stands in the way of. */
  lemma {:induction false} OuterReadExact(debug: bool, w: Words, me: int, th: Thread)
    requires ThreadOk(debug, w, me, th) && !w.crashed && th.pc.Running? && !IsWriter(th)
    requires w.pending == 0 && w.word >= 0
    ensures var (w1, th1) := Alone(debug, w, me, th, CallReadLock, 5);
            var (w2, th2) := Alone(debug, w1, me, th1, DropGuard, 3);
            !w2.crashed <==> Permitted(debug, me, th, CallReadLock)
  {
    OuterReadTakes(debug, w, me, th, 5);
    var (w1, th1) := Alone(debug, w, me, th, CallReadLock, 5);
    if !w1.crashed { OuterReadLeaves(debug, w1, me, th1); }
  }

  // ---------------------------------------------------------------- writer preference

  /** The thread has read _writerPending as 0 and may still take a read hold. */
  function PastPoll(th: Thread): nat { if th.pc.ReadSample? || th.pc.ReadTry? then 1 else 0 }

  /** 1 if this thread's next operation takes an outer read hold: a ReadTry whose CAS succeeds. */
  function ReadWon(w: Words, th: Thread): nat {
    if !w.crashed && th.pc.ReadTry? && w.word == th.pc.expected then 1 else 0
  }

  /** Outer read acquisitions among the first k moves. */
  ghost function ReadsWon(states: seq<State>, moves: seq<Move>, k: nat): nat
    requires Path(states, moves) && k <= |moves|
  {
    if k == 0 then 0
    else
      var s, m := states[k - 1], moves[k - 1];
      assert Step(s, m, states[k]);
      ReadsWon(states, moves, k - 1) + ReadWon(s.w, s.threads[m.t])
  }

  lemma {:induction false} PollHolds(debug: bool, w: Words, me: int, th: Thread, c: Call)
    requires w.pending > 0
    ensures ReadWon(w, th) + PastPoll(Act(debug, w, me, th, c).1) <= PastPoll(th)
  {
  }

  /** While some writer stays announced, the readers that still get in are among those that had
      already passed the poll when the window opened, each at most once. */
  lemma {:induction false} WriterBypassBound(states: seq<State>, moves: seq<Move>, k: nat)
    requires Path(states, moves) && k <= |moves|
    requires forall i :: 0 <= i < k ==> states[i].w.pending > 0
    ensures ReadsWon(states, moves, k) + Sum(states[k].threads, PastPoll) <= Sum(states[0].threads, PastPoll)
  {
    if k > 0 {
      WriterBypassBound(states, moves, k - 1);
      var s, m := states[k - 1], moves[k - 1];
      assert Step(s, m, states[k]);
      PollHolds(s.debug, s.w, Id(m.t), s.threads[m.t], m.c);
      SumUpdate(s.threads, m.t, states[k].threads[m.t], PastPoll);
    }
  }

  /** Such a thread keeps the state word above 0 and itself announced, so its CAS fails. */
  lemma {:induction false} SpinnerStays(s: State, t: nat)
    requires Inv(s) && t < |s.threads| && s.threads[t].pc.WriteSpin? && s.threads[t].holds.Guard?
    ensures s.w.pending > 0 && s.w.word > 0
    ensures forall c :: Act(s.debug, s.w, Id(t), s.threads[t], c).1 == s.threads[t]
  {
    SumAtLeast(s.threads, t, Announced);
    SumAtLeast(s.threads, t, OuterReads);
    WordSays(s, t);
  }

  /** A thread that asks to write while it holds only outer reads spins for ever, and stays
      announced: nobody can ever write again, and no reader gets past the poll again. */
  lemma {:induction false} UpgradeNeverReturns(states: seq<State>, moves: seq<Move>, t: nat, i: nat)
    requires Path(states, moves) && Inv(states[0]) && i < |states| && t < |states[0].threads|
    requires states[0].threads[t].pc.WriteSpin? && states[0].threads[t].holds.Guard?
    ensures t < |states[i].threads| && states[i].threads[t] == states[0].threads[t]
    ensures states[i].w.pending > 0 && states[i].w.word > 0
  {
    if i > 0 {
      UpgradeNeverReturns(states, moves, t, i - 1);
      RunInv(states, moves, i - 1);
      SpinnerStays(states[i - 1], t);
      assert Step(states[i - 1], moves[i - 1], states[i]);
    }
    RunInv(states, moves, i);
    SpinnerStays(states[i], t);
  }
}
