/** Logging in and going offline (Server/AuthRespondent.h, ClientSession::OnDisconnected): a login
    checks and sets is_online under the login lock, but a disconnect clears it outside that lock,
    and a session's id is read and written by different threads.  A step is one SQL statement, one
    atomic operation or one access to the id. */
module Login {
  import opened Runs

  type Id = string

  /** What ClientSession::_id holds before any login. */
  const NO_ID := ""

  /** How far OnDisconnected has come: it reads the id, then runs the UPDATE with what it read.
      stray: the session had not logged in when its id was read. */
  datatype Off = NotOff | Reading(t: nat) | Updating(t: nat, x: Id, stray: bool)

  /** due: the disconnect completion is on its way.  logged and off are history. */
  datatype Session = Session(id: Id, connected: bool, due: bool, done: bool, logged: bool, off: Off)

  datatype Pc =
    | Idle
    | LoginLock(s: nat, x: Id) | LoginSelect(s: nat, x: Id) | LoginUpdate(s: nat, x: Id) | LoginSet(s: nat, x: Id)
    | LoginUnlock
    | OffRead(s: nat) | OffUpdate(s: nat, x: Id)

  /** online: chat.account, from id to is_online. */
  datatype State = State(online: map<Id, bool>, lock: Holder, sessions: seq<Session>, threads: seq<Pc>)

  datatype Choice =
    | Register(x: Id)                      // INSERT of a new account, offline
    | BeginLogin(s: nat, x: Id)
    | Disconnect(s: nat, posted: bool)     // posted: DisconnectEx was accepted
    | BeginOff(s: nat)                     // its completion is dispatched
    | Advance(rightPassword: bool)

  datatype Move = Move(t: nat, c: Choice)

  predicate Enabled(s: State, m: Move) {
    && m.t < |s.threads|
    && var pc := s.threads[m.t];
       match m.c
       case Register(_) => pc.Idle?
       case BeginLogin(q, _) => pc.Idle? && q < |s.sessions|
       case Disconnect(q, _) => q < |s.sessions|
       case BeginOff(q) => pc.Idle? && q < |s.sessions| && s.sessions[q].due
       case Advance(_) =>
         && !pc.Idle? && (pc.LoginLock? ==> s.lock.Nobody?)
         && (pc.LoginSet? || pc.OffRead? || pc.OffUpdate? ==> pc.s < |s.sessions|)
  }

  function SetOnline(online: map<Id, bool>, x: Id, on: bool): map<Id, bool> {
    if x in online then online[x := on] else online
  }

  function Next(s: State, m: Move): State
    requires Enabled(s, m)
  {
    var pc := s.threads[m.t];
    match m.c
    case Register(x) => if x in s.online then s else s.(online := s.online[x := false])
    case BeginLogin(q, x) => s.(threads := s.threads[m.t := LoginLock(q, x)])
    case Disconnect(q, posted) =>
      if !s.sessions[q].connected then s
      else s.(sessions := s.sessions[q := s.sessions[q].(connected := false, due := posted)])
    case BeginOff(q) =>
      s.(sessions := s.sessions[q := s.sessions[q].(due := false, off := Reading(m.t))],
         threads := s.threads[m.t := OffRead(q)])
    case Advance(rightPassword) =>
      match pc
      case Idle => s
      case LoginLock(q, x) => s.(lock := By(m.t), threads := s.threads[m.t := LoginSelect(q, x)])
      case LoginSelect(q, x) =>
        var ok := x in s.online && rightPassword && !s.online[x];
        s.(threads := s.threads[m.t := if ok then LoginUpdate(q, x) else LoginUnlock])
      case LoginUpdate(q, x) =>
        s.(online := SetOnline(s.online, x, true), threads := s.threads[m.t := LoginSet(q, x)])
      case LoginSet(q, x) =>
        s.(sessions := s.sessions[q := s.sessions[q].(id := x, logged := true)],
           threads := s.threads[m.t := LoginUnlock])
      case LoginUnlock => s.(lock := Nobody, threads := s.threads[m.t := Idle])
      case OffRead(q) =>
        s.(sessions := s.sessions[q := s.sessions[q].(off := Updating(m.t, s.sessions[q].id, !s.sessions[q].logged))],
           threads := s.threads[m.t := OffUpdate(q, s.sessions[q].id)])
      case OffUpdate(q, x) =>
        s.(online := SetOnline(s.online, x, false),
           sessions := s.sessions[q := s.sessions[q].(done := true, off := NotOff)],
           threads := s.threads[m.t := Idle])
  }

  ghost predicate Step(s: State, m: Move, s': State) { Enabled(s, m) && s' == Next(s, m) }

  ghost predicate Path(states: seq<State>, moves: seq<Move>) { Linked(Step, states, moves) }

  const NEW_SESSION := Session(NO_ID, true, false, false, false, NotOff)

  predicate Init(s: State) {
    && s.online == map[] && s.lock.Nobody?
    && (forall q :: 0 <= q < |s.sessions| ==> s.sessions[q] == NEW_SESSION)
    && (forall t :: 0 <= t < |s.threads| ==> s.threads[t].Idle?)
  }

  // ---------------------------------------------------------------- invariant, for one account x

  /** Logged in as x and not yet gone offline. */
  predicate Carries(se: Session, x: Id) { se.logged && !se.done && se.id == x }

  /** The session answers for account x: it carries x, or it did and is about to clear x's flag. */
  predicate Claims(se: Session, x: Id) {
    Carries(se, x) || (se.off.Updating? && se.off.x == x && !se.off.stray)
  }

  predicate OnlineNow(online: map<Id, bool>, x: Id) { x in online && online[x] }

  /** A session's own flags; and an account it claims is online. */
  predicate SessionOk(online: map<Id, bool>, se: Session, x: Id) {
    && (se.connected ==> !se.due && !se.done && se.off.NotOff?)
    && (se.due ==> !se.done && se.off.NotOff?)
    && (!se.off.NotOff? ==> !se.done)
    && (!se.logged ==> se.id == NO_ID)
    && (se.off.Updating? && se.off.stray ==> se.off.x == NO_ID)
    && (Claims(se, x) ==> OnlineNow(online, x))
  }

  predicate Separate(a: Session, b: Session, x: Id) { !(Claims(a, x) && Claims(b, x)) }

  predicate InLogin(pc: Pc) { pc.LoginSelect? || pc.LoginUpdate? || pc.LoginSet? || pc.LoginUnlock? }

  predicate ThreadOk(s: State, t: nat, pc: Pc, x: Id) {
    && (InLogin(pc) <==> s.lock == By(t))
    && (pc.LoginSet? && pc.x == x ==> OnlineNow(s.online, x))
    && (pc.LoginUpdate? && pc.x == x ==> x in s.online && !s.online[x])
    && ((pc.LoginUpdate? || pc.LoginSet?) && pc.x == x ==>
          forall q :: 0 <= q < |s.sessions| ==> !Claims(s.sessions[q], x))
  }

  predicate OffOk(t: nat, pc: Pc, q: nat, se: Session) {
    && (pc == OffRead(q) <==> se.off == Reading(t))
    && (pc.OffUpdate? && pc.s == q <==> se.off.Updating? && se.off.t == t)
    && (pc.OffUpdate? && pc.s == q ==> se.off.x == pc.x)
  }

  ghost predicate Sound(s: State, x: Id) {
    && (forall q :: 0 <= q < |s.sessions| ==> SessionOk(s.online, s.sessions[q], x))
    && (forall a, b :: 0 <= a < |s.sessions| && 0 <= b < |s.sessions| && a != b ==>
          Separate(s.sessions[a], s.sessions[b], x))
    && (forall t :: 0 <= t < |s.threads| ==> ThreadOk(s, t, s.threads[t], x))
    && (forall t, q :: 0 <= t < |s.threads| && 0 <= q < |s.sessions| ==> OffOk(t, s.threads[t], q, s.sessions[q]))
  }

  predicate StrayOn(se: Session, x: Id) { se.off.Updating? && se.off.x == x && se.off.stray }

  lemma {:induction false} InitSound(s: State, x: Id)
    requires Init(s)
    ensures Sound(s, x)
  {
  }

  /** The step is the id read of a disconnect, by a session that never logged in and whose id is x. */
  predicate StrayRead(s: State, m: Move, x: Id) {
    && m.t < |s.threads| && m.c.Advance? && s.threads[m.t].OffRead?
    && var q := s.threads[m.t].s;
       q < |s.sessions| && !s.sessions[q].logged && s.sessions[q].id == x
  }

  /** The step is the UPDATE that follows such a read. */
  predicate StrayUpdate(s: State, m: Move, x: Id) {
    && m.t < |s.threads| && m.c.Advance? && s.threads[m.t].OffUpdate?
    && var q := s.threads[m.t].s;
       q < |s.sessions| && StrayOn(s.sessions[q], x)
  }

  predicate SettingId(pc: Pc, x: Id) { pc.LoginSet? && pc.x == x }

  /** And it strikes while another session claims x, or a login has marked x online and not yet set
      its session's id. */
  predicate Harmful(s: State, m: Move, x: Id) {
    && StrayUpdate(s, m, x)
    && (|| (exists q :: 0 <= q < |s.sessions| && q != s.threads[m.t].s && Claims(s.sessions[q], x))
        || (exists t :: 0 <= t < |s.threads| && SettingId(s.threads[t], x)))
  }

  lemma {:induction false} SessionKept(s: State, m: Move, s': State, q: nat, x: Id)
    requires Sound(s, x) && Step(s, m, s') && !Harmful(s, m, x) && q < |s.sessions|
    ensures q < |s'.sessions| && SessionOk(s'.online, s'.sessions[q], x)
  {
    var pc := s.threads[m.t];
    assert SessionOk(s.online, s.sessions[q], x) && ThreadOk(s, m.t, pc, x);
    assert OffOk(m.t, pc, q, s.sessions[q]);
    if m.c.Advance? && pc.OffUpdate? {
      assert OffOk(m.t, pc, pc.s, s.sessions[pc.s]);
      assert q != pc.s ==> Separate(s.sessions[q], s.sessions[pc.s], x);
    }
  }

  lemma {:induction false} SeparateKept(s: State, m: Move, s': State, a: nat, b: nat, x: Id)
    requires Sound(s, x) && Step(s, m, s') && a < |s.sessions| && b < |s.sessions| && a != b
    ensures a < |s'.sessions| && b < |s'.sessions| && Separate(s'.sessions[a], s'.sessions[b], x)
  {
    assert ThreadOk(s, m.t, s.threads[m.t], x) && Separate(s.sessions[a], s.sessions[b], x);
    assert SessionOk(s.online, s.sessions[a], x) && SessionOk(s.online, s.sessions[b], x);
    assert OffOk(m.t, s.threads[m.t], a, s.sessions[a]) && OffOk(m.t, s.threads[m.t], b, s.sessions[b]);
  }

  /** A step adds a claim on x to a session only by setting its id to x. */
  lemma {:induction false} NewClaim(s: State, m: Move, s': State, q: nat, x: Id)
    requires Sound(s, x) && Step(s, m, s') && q < |s.sessions| && q < |s'.sessions|
    requires Claims(s'.sessions[q], x) && !Claims(s.sessions[q], x)
    ensures m.c.Advance? && s.threads[m.t] == LoginSet(q, x)
  {
  }

  lemma {:induction false} ThreadKept(s: State, m: Move, s': State, t: nat, x: Id)
    requires Sound(s, x) && Step(s, m, s') && !Harmful(s, m, x) && t < |s.threads|
    ensures t < |s'.threads| && ThreadOk(s', t, s'.threads[t], x)
  {
    var pc, pc' := s.threads[m.t], s'.threads[t];
    assert ThreadOk(s, m.t, pc, x) && ThreadOk(s, t, s.threads[t], x);
    assert pc.OffUpdate? ==> pc' == s.threads[t] || t == m.t;
    if m.c.Advance? && pc.OffUpdate? { assert OffOk(m.t, pc, pc.s, s.sessions[pc.s]); }
    if (pc'.LoginUpdate? || pc'.LoginSet?) && pc'.x == x {
      forall q | 0 <= q < |s'.sessions|
        ensures !Claims(s'.sessions[q], x)
      {
        assert SessionOk(s.online, s.sessions[q], x);
        if Claims(s'.sessions[q], x) && !Claims(s.sessions[q], x) { NewClaim(s, m, s', q, x); }
      }
    }
  }

  lemma {:induction false} OffKept(s: State, m: Move, s': State, t: nat, q: nat, x: Id)
    requires Sound(s, x) && Step(s, m, s') && t < |s.threads| && q < |s.sessions|
    ensures t < |s'.threads| && q < |s'.sessions| && OffOk(t, s'.threads[t], q, s'.sessions[q])
  {
    assert SessionOk(s.online, s.sessions[q], x);
    assert OffOk(t, s.threads[t], q, s.sessions[q]) && OffOk(m.t, s.threads[m.t], q, s.sessions[q]);
  }

  lemma {:induction false} SoundKept(s: State, m: Move, s': State, x: Id)
    requires Sound(s, x) && Step(s, m, s') && !Harmful(s, m, x)
    ensures Sound(s', x)
  {
    forall q | 0 <= q < |s'.sessions| ensures SessionOk(s'.online, s'.sessions[q], x) { SessionKept(s, m, s', q, x); }
    forall a, b | 0 <= a < |s'.sessions| && 0 <= b < |s'.sessions| && a != b
      ensures Separate(s'.sessions[a], s'.sessions[b], x)
    {
      SeparateKept(s, m, s', a, b, x);
    }
    forall t | 0 <= t < |s'.threads| ensures ThreadOk(s', t, s'.threads[t], x) { ThreadKept(s, m, s', t, x); }
    forall t, q | 0 <= t < |s'.threads| && 0 <= q < |s'.sessions|
      ensures OffOk(t, s'.threads[t], q, s'.sessions[q])
    {
      OffKept(s, m, s', t, q, x);
    }
  }

  lemma {:induction false} RunSound(states: seq<State>, moves: seq<Move>, i: nat, x: Id)
    requires Path(states, moves) && Init(states[0]) && i < |states|
    requires forall k {:trigger moves[k]} :: 0 <= k < i ==> !Harmful(states[k], moves[k], x)
    ensures Sound(states[i], x)
  {
    if i == 0 {
      InitSound(states[0], x);
    } else {
      RunSound(states, moves, i - 1, x);
      assert Step(states[i - 1], moves[i - 1], states[i]);
      SoundKept(states[i - 1], moves[i - 1], states[i], x);
    }
  }

  // ---------------------------------------------------------------- results

  /** Whoever is logged in as x, or is about to be, is marked online. */
  predicate Marked(s: State, x: Id) {
    && (forall q :: 0 <= q < |s.sessions| && Claims(s.sessions[q], x) ==> OnlineNow(s.online, x))
    && (forall t :: 0 <= t < |s.threads| && SettingId(s.threads[t], x) ==> OnlineNow(s.online, x))
  }

  /** Whatever step is taken: the mark, and with it everything that keeps a second session out, is
      lost if and only if the step is the UPDATE of a disconnect by a session that had not logged in
      when its id was read, and somebody else is logged in under that id or about to be. */
  lemma {:induction false} MarkLostExactly(s: State, m: Move, s': State, x: Id)
    requires Sound(s, x) && Step(s, m, s')
    ensures Sound(s', x) <==> !Harmful(s, m, x)
    ensures Marked(s', x) <==> !Harmful(s, m, x)
  {
    if Harmful(s, m, x) {
      HarmfulUnmarks(s, m, s', x);
    } else {
      SoundKept(s, m, s', x);
    }
    if Sound(s', x) { SoundIsMarked(s', x); }
  }

  lemma {:induction false} SoundIsMarked(s: State, x: Id)
    requires Sound(s, x)
    ensures Marked(s, x)
  {
    forall q | 0 <= q < |s.sessions| && Claims(s.sessions[q], x)
      ensures OnlineNow(s.online, x)
    {
      assert SessionOk(s.online, s.sessions[q], x);
    }
    forall t | 0 <= t < |s.threads| && SettingId(s.threads[t], x)
      ensures OnlineNow(s.online, x)
    {
      assert ThreadOk(s, t, s.threads[t], x);
    }
  }

  lemma {:induction false} HarmfulUnmarks(s: State, m: Move, s': State, x: Id)
    requires Sound(s, x) && Step(s, m, s') && Harmful(s, m, x)
    ensures !Marked(s', x)
  {
    var pc := s.threads[m.t];
    assert OffOk(m.t, pc, pc.s, s.sessions[pc.s]);
    assert !OnlineNow(s'.online, x);
    if q :| 0 <= q < |s.sessions| && q != pc.s && Claims(s.sessions[q], x) {
      assert Claims(s'.sessions[q], x);
    } else {
      var t :| 0 <= t < |s.threads| && SettingId(s.threads[t], x);
      assert SettingId(s'.threads[t], x);
    }
  }

  /** For every id, the empty one included, in every interleaving of registrations, logins and
      disconnects without such a step: at most one session is logged in under it, and while one is
      the account is marked online. */
  lemma {:induction false} Exclusive(states: seq<State>, moves: seq<Move>, i: nat, a: nat, b: nat, x: Id)
    requires Path(states, moves) && Init(states[0]) && i < |states|
    requires forall k {:trigger moves[k]} :: 0 <= k < i ==> !Harmful(states[k], moves[k], x)
    requires a < |states[i].sessions| && b < |states[i].sessions| && Carries(states[i].sessions[a], x)
    ensures OnlineNow(states[i].online, x)
    ensures Carries(states[i].sessions[b], x) ==> a == b
  {
    RunSound(states, moves, i, x);
    assert SessionOk(states[i].online, states[i].sessions[a], x);
    assert a != b ==> Separate(states[i].sessions[a], states[i].sessions[b], x);
  }

  /** A session that never logged in has the empty id, in every run. */
  lemma {:induction false} NamedIsLogged(states: seq<State>, moves: seq<Move>, i: nat, q: nat)
    requires Path(states, moves) && Init(states[0]) && i < |states| && q < |states[i].sessions|
    ensures var se := states[i].sessions[q];
            (!se.logged ==> se.id == NO_ID) && (se.off.Updating? && se.off.stray ==> se.off.x == NO_ID)
  {
    if i > 0 {
      assert Step(states[i - 1], moves[i - 1], states[i]);
      NamedIsLogged(states, moves, i - 1, q);
    }
  }

  /** So for every other id it holds in every run without exception. */
  lemma {:induction false} ExclusiveNamed(states: seq<State>, moves: seq<Move>, i: nat, a: nat, b: nat, x: Id)
    requires Path(states, moves) && Init(states[0]) && i < |states|
    requires a < |states[i].sessions| && b < |states[i].sessions| && x != NO_ID
    requires states[i].sessions[a].id == x && !states[i].sessions[a].done
    ensures OnlineNow(states[i].online, x)
    ensures states[i].sessions[b].id == x && !states[i].sessions[b].done ==> a == b
  {
    forall k | 0 <= k < i
      ensures !Harmful(states[k], moves[k], x)
    {
      var pc := states[k].threads[moves[k].t];
      assert Step(states[k], moves[k], states[k + 1]);
      if moves[k].c.Advance? && pc.OffUpdate? { NamedIsLogged(states, moves, k, pc.s); }
    }
    NamedIsLogged(states, moves, i, a);
    NamedIsLogged(states, moves, i, b);
    Exclusive(states, moves, i, a, b, x);
  }

  // ---------------------------------------------------------------- accounts nobody clears

  /** Disconnected, with no disconnect completion to come or in progress: it is over, or DisconnectEx
      failed and there will be none. */
  predicate Dead(se: Session) { !se.connected && !se.due && se.off.NotOff? }

  /** If the session goes on to its end, it will clear x's flag. */
  predicate Answers(se: Session, x: Id) {
    if se.off.Updating? then se.off.x == x else se.logged && se.id == x && !Dead(se)
  }

  /** Marked online, with no session that will clear the mark and no login about to set its id. */
  predicate Orphan(s: State, x: Id) {
    && OnlineNow(s.online, x)
    && (forall q :: 0 <= q < |s.sessions| ==> !Answers(s.sessions[q], x))
    && (forall t :: 0 <= t < |s.threads| ==> !SettingId(s.threads[t], x))
  }

  /** The session that the step takes x away from, or gives it to too late. */
  predicate Forsakes(s: State, m: Move, q: nat, x: Id) {
    && m.t < |s.threads| && q < |s.sessions|
    && var pc, se := s.threads[m.t], s.sessions[q];
       match m.c
       // DisconnectEx fails for a session logged in as x
       case Disconnect(p, posted) => p == q && !posted && se.connected && se.logged && se.id == x
       // x is set on a session that is dead, or whose disconnect has read another id; or another id
       // is set on the session that would have cleared x
       case Advance(_) =>
         && pc.LoginSet? && pc.s == q
         && (if pc.x == x then Dead(se) || (se.off.Updating? && se.off.x != x)
             else !se.off.Updating? && Answers(se, x))
       case _ => false
  }

  predicate NobodyElse(s: State, q: nat, x: Id) {
    forall p :: 0 <= p < |s.sessions| && p != q ==> !Answers(s.sessions[p], x)
  }

  /** Who answers for x, and does not any more, has been forsaken, unless it has just cleared x. */
  lemma {:induction false} AnswerLost(s: State, m: Move, s': State, q: nat, x: Id)
    requires Sound(s, x) && Step(s, m, s') && q < |s.sessions| && q < |s'.sessions|
    requires Answers(s.sessions[q], x) && !Answers(s'.sessions[q], x)
    ensures Forsakes(s, m, q, x) || !OnlineNow(s'.online, x)
  {
    assert SessionOk(s.online, s.sessions[q], x) && OffOk(m.t, s.threads[m.t], q, s.sessions[q]);
  }

  lemma {:induction false} AnswerGained(s: State, m: Move, s': State, q: nat, x: Id)
    requires Sound(s, x) && Step(s, m, s') && q < |s.sessions| && q < |s'.sessions|
    requires !Answers(s.sessions[q], x) && Answers(s'.sessions[q], x)
    ensures StrayRead(s, m, x) || (m.c.Advance? && s.threads[m.t] == LoginSet(q, x))
  {
    assert SessionOk(s.online, s.sessions[q], x) && OffOk(m.t, s.threads[m.t], q, s.sessions[q]);
  }

  lemma {:induction false} ForsakenIsOrphan(s: State, m: Move, s': State, q: nat, x: Id)
    requires Sound(s, x) && Step(s, m, s') && Forsakes(s, m, q, x) && NobodyElse(s, q, x)
    requires forall t :: 0 <= t < |s.threads| && t != m.t ==> !SettingId(s.threads[t], x)
    ensures Orphan(s', x)
  {
    assert SessionOk(s.online, s.sessions[q], x) && ThreadOk(s, m.t, s.threads[m.t], x);
    assert !Answers(s'.sessions[q], x);
    assert forall p :: 0 <= p < |s.sessions| && p != q ==> s'.sessions[p] == s.sessions[p];
  }

  /** A login that sets x and yet leaves x an orphan has set it on a session that cannot answer. */
  lemma {:induction false} SetTooLate(s: State, m: Move, s': State, t: nat, x: Id)
    requires Sound(s, x) && Step(s, m, s') && Orphan(s', x) && t < |s.threads| && SettingId(s.threads[t], x)
    ensures t == m.t && Forsakes(s, m, s.threads[m.t].s, x)
  {
    var before, after := s.threads[t], s'.threads[t];
    assert t == m.t || after == before;
    var q := s.threads[m.t].s;
    var se, se' := s.sessions[q], s'.sessions[q];
    assert se' == se.(id := x, logged := true) && !Answers(se', x);
  }

  lemma {:induction false} OrphanIsForsaken(s: State, m: Move, s': State, x: Id) returns (q: nat)
    requires Sound(s, x) && Step(s, m, s') && !Orphan(s, x) && Orphan(s', x)
    ensures Forsakes(s, m, q, x) && NobodyElse(s, q, x)
  {
    var pc, next := s.threads[m.t], s'.threads[m.t];
    assert m.c.Advance? && pc.LoginUpdate? ==> next == LoginSet(pc.s, pc.x);
    q := 0;
    forall p | 0 <= p < |s.sessions| && Answers(s.sessions[p], x)
      ensures Forsakes(s, m, p, x)
    {
      assert !Answers(s'.sessions[p], x);
      AnswerLost(s, m, s', p, x);
    }
    if p :| 0 <= p < |s.sessions| && Answers(s.sessions[p], x) {
      q := p;
    } else if t :| 0 <= t < |s.threads| && SettingId(s.threads[t], x) {
      SetTooLate(s, m, s', t, x);
      q := pc.s;
    }
  }

  /** An account becomes an orphan exactly when its only answering session is forsaken, or the id is
      set on one that cannot answer and no other can. */
  lemma {:induction false} OrphanedExactly(s: State, m: Move, s': State, x: Id)
    requires Sound(s, x) && Step(s, m, s') && !Orphan(s, x)
    ensures Orphan(s', x) <==> exists q :: Forsakes(s, m, q, x) && NobodyElse(s, q, x)
  {
    if q :| Forsakes(s, m, q, x) && NobodyElse(s, q, x) {
      LoginsApart(s, m, q, x);
      ForsakenIsOrphan(s, m, s', q, x);
    }
    if Orphan(s', x) { var q := OrphanIsForsaken(s, m, s', x); }
  }

  /** While a session of x is forsaken no other login is about to set x. */
  lemma {:induction false} LoginsApart(s: State, m: Move, q: nat, x: Id)
    requires Sound(s, x) && Forsakes(s, m, q, x)
    ensures forall t :: 0 <= t < |s.threads| && t != m.t ==> !SettingId(s.threads[t], x)
  {
    assert ThreadOk(s, m.t, s.threads[m.t], x) && SessionOk(s.online, s.sessions[q], x);
    forall t | 0 <= t < |s.threads| && t != m.t
      ensures !SettingId(s.threads[t], x)
    {
      assert ThreadOk(s, t, s.threads[t], x);
    }
  }

  /** And so it stays, through every step but one: a session that never logged in, and whose id it
      is, begins its own disconnect update. */
  lemma {:induction false} OrphanedForGood(s: State, m: Move, s': State, x: Id)
    requires Sound(s, x) && Step(s, m, s') && Orphan(s, x)
    ensures Orphan(s', x) <==> !StrayRead(s, m, x)
  {
    var pc := s.threads[m.t];
    assert ThreadOk(s, m.t, pc, x);
    if !StrayRead(s, m, x) {
      forall q | 0 <= q < |s'.sessions|
        ensures !Answers(s'.sessions[q], x)
      {
        if Answers(s'.sessions[q], x) { AnswerGained(s, m, s', q, x); }
      }
    } else {
      assert Answers(s'.sessions[pc.s], x);
    }
  }

  // ---------------------------------------------------------------- a login and its SELECT

  predicate Admitted(pc: Pc, q: nat, x: Id) { pc == LoginUpdate(q, x) || pc == LoginSet(q, x) }

  /** In every run, a thread that marks x online, or sets x on session q, has behind it a SELECT that
      found x registered and offline and the password right, and has been about nothing else since. */
  lemma {:induction false} AdmittedBySelect(states: seq<State>, moves: seq<Move>, i: nat, t: nat, q: nat, x: Id)
    returns (k: nat)
    requires Path(states, moves) && Init(states[0]) && i < |states|
    requires t < |states[i].threads| && Admitted(states[i].threads[t], q, x)
    ensures k < i && moves[k] == Move(t, Advance(true))
    ensures var s := states[k];
            t < |s.threads| && s.threads[t] == LoginSelect(q, x) && x in s.online && !s.online[x]
    ensures forall j :: k < j <= i ==> t < |states[j].threads| && Admitted(states[j].threads[t], q, x)
  {
    assert i > 0;
    var s, m := states[i - 1], moves[i - 1];
    assert Step(s, m, states[i]);
    k := i - 1;
    if Admitted(s.threads[t], q, x) {
      k := AdmittedBySelect(states, moves, i - 1, t, q, x);
    }
  }

  // ---------------------------------------------------------------- alone

  /** Thread t, and nobody else's login, is free to run. */
  predicate Quiet(s: State, t: nat) { t < |s.threads| && s.threads[t].Idle? && s.lock.Nobody? }

  function At(s: State, t: nat, pc: Pc): State
    requires t < |s.threads|
  {
    s.(threads := s.threads[t := pc])
  }

  /** The state after a login of session q as x. */
  function LoginTo(s: State, q: nat, x: Id, rightPassword: bool): State
    requires q < |s.sessions|
  {
    if x in s.online && !s.online[x] && rightPassword then
      s.(online := s.online[x := true], sessions := s.sessions[q := s.sessions[q].(id := x, logged := true)])
    else s
  }

  /** A login run alone logs in and marks the account online if it is registered, offline and the
      password right, and else changes nothing; either way the lock is free again. */
  lemma {:induction false} LoginAlone(states: seq<State>, moves: seq<Move>, s: State, t: nat, q: nat, x: Id,
                                      rightPassword: bool)
    returns (states': seq<State>, moves': seq<Move>)
    requires Path(states, moves) && states[|states| - 1] == s && Quiet(s, t) && q < |s.sessions|
    ensures Path(states', moves') && states'[0] == states[0]
    ensures states'[|states'| - 1] == LoginTo(s, q, x, rightPassword)
  {
    var go := Move(t, Advance(rightPassword));
    states', moves' := Extend(Step, states, moves, Move(t, BeginLogin(q, x)), At(s, t, LoginLock(q, x)));
    var s1 := s.(lock := By(t));
    assert At(s, t, LoginLock(q, x)).threads[t := LoginSelect(q, x)] == At(s, t, LoginSelect(q, x)).threads;
    states', moves' := Extend(Step, states', moves', go, At(s1, t, LoginSelect(q, x)));
    var s2 := s1;
    if x in s.online && !s.online[x] && rightPassword {
      states', moves' := LoginAdmits(states', moves', s1, t, q, x, rightPassword);
      s2 := LoginTo(s1, q, x, true);
    } else {
      assert At(s1, t, LoginSelect(q, x)).threads[t := LoginUnlock] == At(s1, t, LoginUnlock).threads;
      states', moves' := Extend(Step, states', moves', go, At(s1, t, LoginUnlock));
    }
    assert At(s2, t, LoginUnlock).threads[t := Idle] == s.threads;
    states', moves' := Extend(Step, states', moves', go, LoginTo(s, q, x, rightPassword));
  }

  lemma {:induction false} LoginAdmits(states: seq<State>, moves: seq<Move>, s: State, t: nat, q: nat, x: Id,
                                       rightPassword: bool)
    returns (states': seq<State>, moves': seq<Move>)
    requires Path(states, moves) && t < |s.threads| && q < |s.sessions| && rightPassword
    requires states[|states| - 1] == At(s, t, LoginSelect(q, x)) && x in s.online && !s.online[x]
    ensures Path(states', moves') && states'[0] == states[0]
    ensures states'[|states'| - 1] == At(LoginTo(s, q, x, true), t, LoginUnlock)
  {
    var go := Move(t, Advance(rightPassword));
    var s1, s2 := s.(online := s.online[x := true]), LoginTo(s, q, x, true);
    assert At(s, t, LoginSelect(q, x)).threads[t := LoginUpdate(q, x)] == At(s, t, LoginUpdate(q, x)).threads;
    states', moves' := Extend(Step, states, moves, go, At(s, t, LoginUpdate(q, x)));
    assert At(s, t, LoginUpdate(q, x)).threads[t := LoginSet(q, x)] == At(s1, t, LoginSet(q, x)).threads;
    states', moves' := Extend(Step, states', moves', go, At(s1, t, LoginSet(q, x)));
    assert At(s1, t, LoginSet(q, x)).threads[t := LoginUnlock] == At(s2, t, LoginUnlock).threads;
    states', moves' := Extend(Step, states', moves', go, At(LoginTo(s, q, x, true), t, LoginUnlock));
  }

  /** A connected session's disconnect, run alone, marks offline whatever account its id names. */
  lemma {:induction false} OffAlone(states: seq<State>, moves: seq<Move>, s: State, t: nat, q: nat)
    returns (states': seq<State>, moves': seq<Move>)
    requires Path(states, moves) && states[|states| - 1] == s && Quiet(s, t)
    requires q < |s.sessions| && s.sessions[q].connected && s.sessions[q].off.NotOff?
    ensures Path(states', moves') && states'[0] == states[0]
    ensures states'[|states'| - 1]
      == s.(online := SetOnline(s.online, s.sessions[q].id, false),
            sessions := s.sessions[q := s.sessions[q].(connected := false, due := false, done := true)])
  {
    var se := s.sessions[q];
    var go := Move(t, Advance(true));
    var s1 := s.(sessions := s.sessions[q := se.(connected := false, due := true)]);
    states', moves' := Extend(Step, states, moves, Move(t, Disconnect(q, true)), s1);
    var e2 := se.(connected := false, due := false, off := Reading(t));
    var s2 := At(s.(sessions := s.sessions[q := e2]), t, OffRead(q));
    assert s1.sessions[q := e2] == s2.sessions;
    states', moves' := Extend(Step, states', moves', Move(t, BeginOff(q)), s2);
    var e3 := e2.(off := Updating(t, se.id, !se.logged));
    var s3 := At(s.(sessions := s.sessions[q := e3]), t, OffUpdate(q, se.id));
    assert s2.sessions[q := e3] == s3.sessions && s2.threads[t := OffUpdate(q, se.id)] == s3.threads;
    states', moves' := Extend(Step, states', moves', go, s3);
    var s4 := s.(online := SetOnline(s.online, se.id, false),
                 sessions := s.sessions[q := se.(connected := false, due := false, done := true)]);
    assert s3.sessions[q := s4.sessions[q]] == s4.sessions && s3.threads[t := Idle] == s.threads;
    states', moves' := Extend(Step, states', moves', go, s4);
  }

  // ---------------------------------------------------------------- what goes wrong, concretely

  /** Where such a step comes it fails: a session that never logged in has the empty id, so its
      disconnect marks that account offline, and a second session can log in beside the first. */
  lemma {:induction false} EmptyIdShared() returns (states: seq<State>, moves: seq<Move>)
    ensures Path(states, moves) && Init(states[0])
    ensures var s := states[|states| - 1];
            && |s.sessions| == 3
            && s.sessions[0].logged && s.sessions[0].id == NO_ID && !s.sessions[0].done
            && s.sessions[2].logged && s.sessions[2].id == NO_ID && !s.sessions[2].done
  {
    var s0 := State(map[], Nobody, [NEW_SESSION, NEW_SESSION, NEW_SESSION], [Idle]);
    var s1 := s0.(online := map[NO_ID := false]);
    states, moves := Extend(Step, [s0], [], Move(0, Register(NO_ID)), s1);
    states, moves := LoginAlone(states, moves, s1, 0, 0, NO_ID, true);
    var s2 := states[|states| - 1];
    states, moves := OffAlone(states, moves, s2, 0, 1);
    var s3 := states[|states| - 1];
    states, moves := LoginAlone(states, moves, s3, 0, 2, NO_ID, true);
  }

  /** A second login by the same session under another name leaves the first account online for
      good. */
  lemma {:induction false} OrphanHappens() returns (states: seq<State>, moves: seq<Move>)
    ensures Path(states, moves) && Init(states[0]) && Orphan(states[|states| - 1], "a")
  {
    var s0 := State(map[], Nobody, [NEW_SESSION], [Idle]);
    var s1 := s0.(online := map["a" := false]);
    states, moves := Extend(Step, [s0], [], Move(0, Register("a")), s1);
    var s2 := s0.(online := map["a" := false, "b" := false]);
    assert s1.online["b" := false] == s2.online;
    states, moves := Extend(Step, states, moves, Move(0, Register("b")), s2);
    states, moves := LoginAlone(states, moves, s2, 0, 0, "a", true);
    var s3 := states[|states| - 1];
    states, moves := LoginAlone(states, moves, s3, 0, 0, "b", true);
  }

  /** So does a failed DisconnectEx. */
  lemma {:induction false} FailedDisconnectOrphans() returns (states: seq<State>, moves: seq<Move>)
    ensures Path(states, moves) && Init(states[0])
    ensures var s := states[|states| - 1];
            |s.sessions| == 1 && Carries(s.sessions[0], "a") && Orphan(s, "a")
  {
    var s0 := State(map[], Nobody, [NEW_SESSION], [Idle]);
    var s1 := s0.(online := map["a" := false]);
    states, moves := Extend(Step, [s0], [], Move(0, Register("a")), s1);
    states, moves := LoginAlone(states, moves, s1, 0, 0, "a", true);
    var s2 := states[|states| - 1];
    var s3 := s2.(sessions := [s2.sessions[0].(connected := false)]);
    assert s2.sessions[0 := s3.sessions[0]] == s3.sessions;
    states, moves := Extend(Step, states, moves, Move(0, Disconnect(0, false)), s3);
  }
}
