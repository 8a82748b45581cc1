/**
 The sleep lock built on a semaphore, and condition variables on top of it, in
 every interleaving of any number of threads.  The semaphore is the machine of
 module Semaphore with an initial count of one; a thread inside P or V takes
 that machine's steps.
 */
module Monitor {
  import S = Semaphore

  type Tid(==) = S.Tid

  /** The lock's own spinlock, and the spinlock of each condition variable. */
  datatype Spin = LkLock | CvLock(v: nat)

  /** Who asks lock_do_i_hold, and so what happens with the answer. */
  datatype Query =
    | ForAcquire(m: Mode)                  // lock_acquire asserts no
    | ForRelease(m: Mode)                  // lock_release asserts yes
    | ForWait(v: nat)                      // cv_wait asserts yes
    | ForSignal(v: nat, all: bool)         // cv_signal and cv_broadcast assert yes
    | ForCaller

  /** Whether lock_acquire or lock_release was called from outside or by cv_wait. */
  datatype Mode = Plain | InWait(v: nat)

  datatype Pc =
    | Outside
    | Ask(q: Query)                        // about to take the spinlock to read the owner
    | Asking(q: Query)                     // about to read it and let go
    | InP(m: Mode)
    | Take(m: Mode)                        // lock_acquire past P, about to take the spinlock
    | Claim(m: Mode)                       // about to assert that there is no owner, and become it
    | Claimed(m: Mode)                     // about to let go and return
    | Unlock(m: Mode)                      // lock_release, about to take the spinlock
    | Disown(m: Mode)                      // about to clear the owner
    | InV(m: Mode)
    | Unlocked(m: Mode)                    // about to let go
    | WaitLock(v: nat)                     // cv_wait, about to take the variable's spinlock
    | WaitSleep(v: nat)                    // about to go on the channel
    | WaitListed(v: nat)                   // about to let go of the variable's spinlock
    | WaitAsleep(v: nat)
    | WaitWoken(v: nat)                    // about to take it again
    | WaitBack(v: nat)                     // about to let go of it for good
    | SignalLock(v: nat, all: bool)
    | SignalWake(v: nat, all: bool)
    | SignalDone(v: nat)

  datatype Mon = Mon(
    sem: S.Sem,
    owner: S.Holder,
    spins: map<Spin, Tid>,                 // the spinlocks that are held
    pc: map<Tid, Pc>,
    chan: map<nat, seq<Tid>>               // who sleeps on each variable; none where not mentioned
  ) {
    function Waiters(v: nat): (q: seq<Tid>)
    {
      if v in chan then chan[v] else []
    }
  }

  datatype Move = Call(q: Query) | Step

  /** The spinlock a thread at p is about to take. */
  datatype Want = Nothing | Wants(l: Spin)

  function Wanted(p: Pc): (w: Want)
  {
    match p
    case Ask(_) => Wants(LkLock)
    case Take(_) => Wants(LkLock)
    case Unlock(_) => Wants(LkLock)
    case WaitLock(v) => Wants(CvLock(v))
    case WaitWoken(v) => Wants(CvLock(v))
    case SignalLock(v, _) => Wants(CvLock(v))
    case _ => Nothing
  }

  /**
   When a thread can move.  A caller of anything but lock_acquire holds the lock; a caller of
   lock_acquire does not.
   */
  predicate Can(s: Mon, t: Tid, m: Move)
  {
    && t in s.pc && t in s.sem.pc
    && match m
       case Call(q) =>
         && s.pc[t].Outside? && s.sem.pc[t].Idle?
         && (match q
             case ForAcquire(m) => m.Plain? && s.owner != S.Held(t)
             case ForRelease(m) => m.Plain? && s.owner == S.Held(t)
             case ForWait(_) => s.owner == S.Held(t)
             case ForSignal(_, _) => s.owner == S.Held(t)
             case ForCaller => true)
       case Step =>
         && !s.pc[t].Outside? && !s.pc[t].WaitAsleep?
         && (Wanted(s.pc[t]).Wants? ==> Wanted(s.pc[t]).l !in s.spins)
         && (s.pc[t].InP? || s.pc[t].InV? ==> S.Can(s.sem, t, S.Step))
         && (s.pc[t].Asking? || s.pc[t].Disown? ==> s.sem.pc[t].Idle?)
  }

  /** The next point, given whether P or V is over and whether the channel is empty. */
  function After(p: Pc, over: bool, empty: bool): (p': Pc)
  {
    match p
    case Outside => Outside
    case Ask(q) => Asking(q)
    case Asking(q) =>
      (match q
       case ForAcquire(m) => InP(m)
       case ForRelease(m) => Unlock(m)
       case ForWait(v) => WaitLock(v)
       case ForSignal(v, all) => SignalLock(v, all)
       case ForCaller => Outside)
    case InP(m) => if over then Take(m) else p
    case Take(m) => Claim(m)
    case Claim(m) => Claimed(m)
    case Claimed(m) => Outside
    case Unlock(m) => Disown(m)
    case Disown(m) => InV(m)
    case InV(m) => if over then Unlocked(m) else p
    case Unlocked(m) => if m.Plain? then Outside else WaitSleep(m.v)
    case WaitLock(v) => Ask(ForRelease(InWait(v)))
    case WaitSleep(v) => WaitListed(v)
    case WaitListed(v) => WaitAsleep(v)
    case WaitAsleep(v) => p
    case WaitWoken(v) => WaitBack(v)
    case WaitBack(v) => Ask(ForAcquire(InWait(v)))
    case SignalLock(v, all) => SignalWake(v, all)
    case SignalWake(v, all) => if empty || !all then SignalDone(v) else p
    case SignalDone(v) => Outside
  }

  /** The spinlock a thread at p is about to drop. */
  function Dropped(p: Pc): (w: Want)
  {
    match p
    case Asking(_) => Wants(LkLock)
    case Claimed(_) => Wants(LkLock)
    case Unlocked(_) => Wants(LkLock)
    case WaitListed(v) => Wants(CvLock(v))
    case WaitBack(v) => Wants(CvLock(v))
    case SignalDone(v) => Wants(CvLock(v))
    case _ => Nothing
  }

  predicate Wakes(s: Mon, t: Tid)
    requires t in s.pc
  {
    s.pc[t].SignalWake? && s.Waiters(s.pc[t].v) != []
  }

  predicate InSem(p: Pc) { p.InP? || p.InV? }

  /** One step of thread t, or a call it makes. */
  function Do(s: Mon, t: Tid, m: Move): (s': Mon)
    requires Can(s, t, m)
  {
    if m.Call? then s.(pc := s.pc[t := Ask(m.q)])
    else
      var p := s.pc[t];
      var sem :=
        if InSem(p) then S.Do(s.sem, t, S.Step)
        else if p.Disown? then S.Do(s.sem, t, S.CallV)
        else if p.Asking? && p.q.ForAcquire? then S.Do(s.sem, t, S.CallP)
        else s.sem;
      var next := After(p, InSem(p) && sem.pc[t].Idle?, p.SignalWake? && s.Waiters(p.v) == []);
      Mon(
        sem,
        if p.Claim? then S.Held(t) else if p.Disown? then S.NoThread else s.owner,
        if Wanted(p).Wants? then s.spins[Wanted(p).l := t]
        else if Dropped(p).Wants? then s.spins - {Dropped(p).l} else s.spins,
        if Wakes(s, t) then s.pc[s.Waiters(p.v)[0] := WaitWoken(p.v)][t := next] else s.pc[t := next],
        if p.WaitSleep? then s.chan[p.v := s.Waiters(p.v) + [t]]
        else if Wakes(s, t) then s.chan[p.v := s.Waiters(p.v)[1..]] else s.chan)
  }

  // ---- The invariant ----

  function GuardOf(m: Mode): (h: set<Spin>) { if m.Plain? then {} else {CvLock(m.v)} }

  function QueryGuard(q: Query): (h: set<Spin>) { if q.ForRelease? then GuardOf(q.m) else {} }

  /** The spinlocks a thread holds, by where it is. */
  function Spins(p: Pc): (h: set<Spin>)
  {
    match p
    case Ask(q) => QueryGuard(q)
    case Asking(q) => {LkLock} + QueryGuard(q)
    case Claim(_) => {LkLock}
    case Claimed(_) => {LkLock}
    case Unlock(m) => GuardOf(m)
    case Disown(m) => {LkLock} + GuardOf(m)
    case InV(m) => {LkLock} + GuardOf(m)
    case Unlocked(m) => {LkLock} + GuardOf(m)
    case WaitSleep(v) => {CvLock(v)}
    case WaitListed(v) => {CvLock(v)}
    case WaitBack(v) => {CvLock(v)}
    case SignalWake(v, _) => {CvLock(v)}
    case SignalDone(v) => {CvLock(v)}
    case _ => {}
  }

  ghost predicate SpinsOk(s: Mon)
  {
    && (forall l :: l in s.spins ==> s.spins[l] in s.pc && l in Spins(s.pc[s.spins[l]]))
    && (forall t, l :: t in s.pc && l in Spins(s.pc[t]) ==> l in s.spins && s.spins[l] == t)
  }

  /** Whether a thread at p is the owner; at some points it may or may not be. */
  datatype Ownership = Must | MustNot | May

  function QueryOwns(q: Query): (o: Ownership)
  {
    if q.ForCaller? then May else if q.ForAcquire? then MustNot else Must
  }

  function Owns(p: Pc): (o: Ownership)
  {
    match p
    case Outside => May
    case Ask(q) => QueryOwns(q)
    case Asking(q) => QueryOwns(q)
    case Claimed(_) => Must
    case Unlock(_) => Must
    case Disown(_) => Must
    case WaitLock(_) => Must
    case SignalLock(_, _) => Must
    case SignalWake(_, _) => Must
    case SignalDone(_) => Must
    case _ => MustNot
  }

  predicate OwnerAt(p: Pc, owner: S.Holder, t: Tid)
  {
    && (Owns(p).Must? ==> owner == S.Held(t))
    && (Owns(p).MustNot? ==> owner != S.Held(t))
  }

  predicate SemAt(p: Pc, q: S.Pc)
  {
    if p.InP? then
      || q.PStart? || q.PCheck? || q.PCount? || q.PLoaded? || q.PSleep? || q.PListed? || q.PAsleep? || q.PWoken?
      || q.PDone?
    else if p.InV? then q.VStart? || q.VCount? || q.VLoaded? || q.VWake? || q.VDone?
    else q.Idle?
  }

  /** Between counting the semaphore down and counting it up again. */
  predicate HasIt(p: Pc, q: S.Pc)
  {
    q.PDone? || p.Take? || p.Claim? || q.VStart? || q.VCount? || q.VLoaded?
  }

  ghost predicate Token(s: Mon, t: Tid)
  {
    t in s.pc && t in s.sem.pc && (HasIt(s.pc[t], s.sem.pc[t]) || s.owner == S.Held(t))
  }

  ghost function Tokens(s: Mon): (h: set<Tid>)
  {
    set t | t in s.pc && Token(s, t)
  }

  predicate Sleeps(p: Pc, v: nat) { p == WaitListed(v) || p == WaitAsleep(v) }

  ghost predicate ChanAt(q: seq<Tid>, pc: map<Tid, Pc>, v: nat)
  {
    && (forall i, j :: 0 <= i < j < |q| ==> q[i] != q[j])
    && (forall t :: t in q <==> t in pc && Sleeps(pc[t], v))
  }

  ghost predicate ChanOk(s: Mon, v: nat) { ChanAt(s.Waiters(v), s.pc, v) }

  ghost predicate PcOk(s: Mon, t: Tid)
    requires t in s.pc
  {
    t in s.sem.pc && OwnerAt(s.pc[t], s.owner, t) && SemAt(s.pc[t], s.sem.pc[t])
  }

  ghost predicate Inv(s: Mon)
  {
    && S.Inv(s.sem) && s.sem.init == 1 && s.sem.pc.Keys == s.pc.Keys
    && (s.owner.Held? ==> s.owner.t in s.pc)
    && SpinsOk(s)
    && (forall t :: t in s.pc ==> PcOk(s, t))
    && (forall v :: ChanOk(s, v))
    && s.sem.count + |Tokens(s)| == 1
  }

  // ---- Each step keeps it ----

  lemma AfterSpins(p: Pc, over: bool, empty: bool)
    ensures Spins(After(p, over, empty)) ==
            if Wanted(p).Wants? then Spins(p) + {Wanted(p).l}
            else if Dropped(p).Wants? then Spins(p) - {Dropped(p).l} else Spins(p)
    ensures Dropped(p).Wants? ==> Dropped(p).l in Spins(p) && Wanted(p).Nothing?
  {}

  /** What the invariant says about one thread, and about the thread it is about to wake. */
  lemma Knows(s: Mon, t: Tid)
    requires Inv(s) && t in s.pc
    ensures SpinsOk(s) && PcOk(s, t) && S.Inv(s.sem) && s.sem.pc.Keys == s.pc.Keys && s.sem.init == 1
    ensures Wakes(s, t) ==> var u := s.Waiters(s.pc[t].v)[0]; u in s.pc && u != t && s.pc[u] == WaitAsleep(s.pc[t].v)
  {
    if Wakes(s, t) {
      var v := s.pc[t].v;
      assert ChanOk(s, v) && s.Waiters(v)[0] in s.Waiters(v);
      var u := s.Waiters(v)[0];
      if CvLock(v) in Spins(s.pc[u]) { OneHolder(s, CvLock(v), t, u); }
    }
  }

  lemma OneHolder(s: Mon, l: Spin, t: Tid, u: Tid)
    requires SpinsOk(s) && t in s.pc && u in s.pc && l in Spins(s.pc[t]) && l in Spins(s.pc[u])
    ensures t == u
  {
    assert s.spins[l] == t && s.spins[l] == u;
  }

  /** The semaphore after a step: its own machine's next state, or the start of a P or V. */
  lemma SemAfter(s: Mon, t: Tid, m: Move)
    requires Inv(s) && Can(s, t, m)
    ensures var s' := Do(s, t, m);
      S.Inv(s'.sem) && s'.sem.init == 1 && s'.sem.pc.Keys == s.pc.Keys
  {
    hide Inv, SpinsOk;
    Knows(s, t);
    if m.Step? {
      if InSem(s.pc[t]) { SemKeys(s.sem, t); S.DoKeeps(s.sem, t, S.Step); }
      else if s.pc[t].Disown? { S.DoKeeps(s.sem, t, S.CallV); }
      else if s.pc[t].Asking? && s.pc[t].q.ForAcquire? { S.DoKeeps(s.sem, t, S.CallP); }
    }
  }

  lemma SemKeys(sem: S.Sem, t: Tid)
    requires S.Inv(sem) && S.Can(sem, t, S.Step)
    ensures S.Do(sem, t, S.Step).pc.Keys == sem.pc.Keys
  {}

  /** Taking or dropping one spinlock. */
  lemma SpinsMoved(s: Mon, s': Mon, t: Tid, l: Spin)
    requires SpinsOk(s) && t in s.pc && s'.pc.Keys == s.pc.Keys
    requires forall u :: u in s.pc && u != t ==> Spins(s'.pc[u]) == Spins(s.pc[u])
    requires || (s'.spins == s.spins && Spins(s'.pc[t]) == Spins(s.pc[t]))
             || (l !in s.spins && s'.spins == s.spins[l := t] && Spins(s'.pc[t]) == Spins(s.pc[t]) + {l})
             || (l in Spins(s.pc[t]) && s'.spins == s.spins - {l} && Spins(s'.pc[t]) == Spins(s.pc[t]) - {l})
    ensures SpinsOk(s')
  {
    hide Spins;
  }

  lemma SpinsAfter(s: Mon, t: Tid, m: Move)
    requires Inv(s) && Can(s, t, m)
    ensures SpinsOk(Do(s, t, m)) && Do(s, t, m).pc.Keys == s.pc.Keys
  {
    hide Inv, SpinsOk, S.Inv, S.Do, S.Can, After, Spins;
    Knows(s, t);
    SemAfter(s, t, m);
    SpinsAsleep();
    var s', p := Do(s, t, m), s.pc[t];
    if m.Call? {
      SpinsCall(m.q);
      SpinsMoved(s, s', t, LkLock);
    } else {
      AfterSpins(p, InSem(p) && s'.sem.pc[t].Idle?, p.SignalWake? && s.Waiters(p.v) == []);
      var l := if Wanted(p).Wants? then Wanted(p).l else if Dropped(p).Wants? then Dropped(p).l else LkLock;
      SpinsMoved(s, s', t, l);
    }
  }

  lemma SpinsAsleep()
    ensures forall v :: Spins(WaitAsleep(v)) == Spins(WaitWoken(v)) == {}
    ensures Spins(Outside) == {}
  {}

  lemma SpinsCall(q: Query)
    requires q.ForRelease? ==> q.m.Plain?
    ensures Spins(Ask(q)) == {}
  {}

  /** The point after a step fits who is the owner, and what the semaphore is doing for the thread. */
  lemma AfterOwns(p: Pc, over: bool, empty: bool, owner: S.Holder, t: Tid)
    requires OwnerAt(p, owner, t)
    ensures OwnerAt(After(p, over, empty), if p.Claim? then S.Held(t) else if p.Disown? then S.NoThread else owner, t)
  {}

  lemma AfterSem(s: Mon, t: Tid)
    requires Can(s, t, Step) && SemAt(s.pc[t], s.sem.pc[t]) && S.Inv(s.sem) && s.sem.pc.Keys == s.pc.Keys
    ensures var s' := Do(s, t, Step);
      t in s'.sem.pc && SemAt(s'.pc[t], s'.sem.pc[t])
  {}

  lemma PcAfter(s: Mon, t: Tid, m: Move, u: Tid)
    requires Inv(s) && Can(s, t, m) && u in s.pc
    ensures var s' := Do(s, t, m); u in s'.pc && PcOk(s', u)
  {
    hide Inv, SpinsOk, Spins, S.Inv, Token;
    Knows(s, t);
    Knows(s, u);
    SemAfter(s, t, m);
    var s', p := Do(s, t, m), s.pc[t];
    if u == t {
      if m.Step? {
        AfterOwns(p, InSem(p) && s'.sem.pc[t].Idle?, p.SignalWake? && s.Waiters(p.v) == [], s.owner, t);
        AfterSem(s, t);
      }
    } else {
      OtherPc(s, t, m, u);
    }
  }

  /** A step of t does not take the lock from u, give it to u, or move u within P or V, but for waking it. */
  lemma OtherPc(s: Mon, t: Tid, m: Move, u: Tid)
    requires Inv(s) && Can(s, t, m) && u in s.pc && u != t
    ensures var s' := Do(s, t, m);
      u in s'.pc && u in s'.sem.pc && OwnerAt(s'.pc[u], s'.owner, u) && SemAt(s'.pc[u], s'.sem.pc[u])
  {
    hide Inv, SpinsOk, Spins, Do, S.Inv;
    Knows(s, t);
    Knows(s, u);
    Unmoved(s, t, m, u);
    if s.pc[t].Claim? && s.owner == S.Held(u) { OneToken(s, t, u); }
  }

  lemma OneToken(s: Mon, t: Tid, u: Tid)
    requires Inv(s) && Token(s, t) && Token(s, u)
    ensures t == u
  {
    if t != u {
      assert {t, u} <= Tokens(s);
      Bigger({t, u}, Tokens(s));
    }
  }

  lemma Bigger(a: set<Tid>, b: set<Tid>)
    requires a <= b
    ensures |a| <= |b|
  {
    if a != {} {
      var x :| x in a;
      Bigger(a - {x}, b - {x});
    }
  }

  lemma AfterSleeps(p: Pc, over: bool, empty: bool, v: nat)
    requires !p.WaitAsleep?
    ensures Sleeps(After(p, over, empty), v) <==> p == WaitSleep(v) || p == WaitListed(v)
  {}

  lemma ChanPut(q: seq<Tid>, pc: map<Tid, Pc>, v: nat, t: Tid, p: Pc)
    requires ChanAt(q, pc, v) && t in pc
    ensures Sleeps(p, v) == Sleeps(pc[t], v) ==> ChanAt(q, pc[t := p], v)
    ensures !Sleeps(pc[t], v) && Sleeps(p, v) ==> ChanAt(q + [t], pc[t := p], v)
    ensures q != [] && q[0] == t && !Sleeps(p, v) ==> ChanAt(q[1..], pc[t := p], v)
  {}

  lemma ChanIn(s: Mon, v: nat)
    requires Inv(s)
    ensures ChanAt(s.Waiters(v), s.pc, v)
  {
    hide SpinsOk, PcOk, S.Inv, ChanAt;
    assert ChanOk(s, v);
  }

  lemma ChanWakes(s: Mon, t: Tid, v: nat)
    requires Inv(s) && Can(s, t, Step) && Wakes(s, t)
    ensures ChanOk(Do(s, t, Step), v)
  {
    hide Inv, SpinsOk, S.Inv, PcOk, ChanAt;
    Knows(s, t);
    ChanIn(s, v);
    var p, q := s.pc[t], s.Waiters(v);
    var u := s.Waiters(p.v)[0];
    var p' := After(p, false, false);
    ChanPut(q, s.pc, v, u, WaitWoken(p.v));
    ChanPut(if p.v == v then q[1..] else q, s.pc[u := WaitWoken(p.v)], v, t, p');
    assert Do(s, t, Step).Waiters(v) == if p.v == v then q[1..] else q;
    assert Do(s, t, Step).pc == s.pc[u := WaitWoken(p.v)][t := p'];
  }

  lemma ChanAfter(s: Mon, t: Tid, m: Move, v: nat)
    requires Inv(s) && Can(s, t, m)
    ensures ChanOk(Do(s, t, m), v)
  {
    hide Inv, SpinsOk, S.Inv, S.Do, S.Can, After, Wanted, Dropped, PcOk, ChanAt;
    Knows(s, t);
    ChanIn(s, v);
    SemAfter(s, t, m);
    var s', p, q := Do(s, t, m), s.pc[t], s.Waiters(v);
    if m.Step? && Wakes(s, t) {
      ChanWakes(s, t, v);
    } else {
      ChanPut(q, s.pc, v, t, s'.pc[t]);
      if m.Step? { AfterSleeps(p, InSem(p) && s'.sem.pc[t].Idle?, p.SignalWake? && s.Waiters(p.v) == [], v); }
      assert s'.pc == s.pc[t := s'.pc[t]];
      assert s'.Waiters(v) == if m.Step? && p == WaitSleep(v) then q + [t] else q;
    }
  }

  /** A step of t moves another thread only by waking it, here or in the semaphore. */
  lemma Unmoved(s: Mon, t: Tid, m: Move, u: Tid)
    requires Inv(s) && Can(s, t, m) && u in s.pc && u != t
    ensures var s' := Do(s, t, m);
      && u in s'.pc && u in s'.sem.pc && u in s.sem.pc
      && (s'.pc[u] == s.pc[u] || (s.pc[u].WaitAsleep? && s'.pc[u] == WaitWoken(s.pc[u].v)))
      && (s'.sem.pc[u] == s.sem.pc[u] || (S.Waiting(s.sem.pc[u]) && s'.sem.pc[u].PWoken?))
      && (|| s'.owner == s.owner
          || (s.pc[t].Claim? && s'.owner == S.Held(t))
          || (s.owner == S.Held(t) && s'.owner.NoThread?))
  {
    hide Inv, SpinsOk, Spins, After, Wanted, Dropped;
    Knows(s, t);
    SemAfter(s, t, m);
    if m.Step? && InSem(s.pc[t]) { SemOther(s.sem, t, u); }
  }

  lemma SemOther(sem: S.Sem, t: Tid, u: Tid)
    requires S.Inv(sem) && S.Can(sem, t, S.Step) && u in sem.pc && u != t
    ensures var sem' := S.Do(sem, t, S.Step);
      u in sem'.pc && (sem'.pc[u] == sem.pc[u] || (S.Waiting(sem.pc[u]) && sem'.pc[u].PWoken?))
  {}

  /** No step but a thread's own gives it the token or takes it away. */
  lemma TokenAfter(s: Mon, t: Tid, m: Move, u: Tid)
    requires Inv(s) && Can(s, t, m) && u in s.pc && u != t
    ensures Token(Do(s, t, m), u) == Token(s, u)
  {
    hide Inv, SpinsOk, Spins, Do, S.Inv;
    Knows(s, t);
    Knows(s, u);
    Unmoved(s, t, m, u);
    if s.pc[t].Claim? && s.owner == S.Held(u) { OneToken(s, t, u); }
  }

  /** In P the token comes with the count, in V it goes with it. */
  lemma SemToken(s: Mon, t: Tid)
    requires Inv(s) && Can(s, t, Step) && InSem(s.pc[t])
    ensures var s' := Do(s, t, Step);
      && t in s'.sem.pc && t in s.sem.pc && s'.owner == s.owner != S.Held(t)
      && s'.sem.count + (if HasIt(s'.pc[t], s'.sem.pc[t]) then 1 else 0)
         == s.sem.count + (if HasIt(s.pc[t], s.sem.pc[t]) then 1 else 0)
  {
    hide Inv, SpinsOk, Spins, S.Inv;
    Knows(s, t);
    SemAfter(s, t, Step);
    SemSeen(s.sem, t);
  }

  lemma SemSeen(sem: S.Sem, t: Tid)
    requires S.Inv(sem) && t in sem.pc
    ensures S.SeenBy(sem.pc[t], sem.count)
  {}

  lemma AfterHasIt(p: Pc, over: bool, empty: bool)
    requires !InSem(p)
    ensures var p' := After(p, over, empty);
            !p'.Take? && (p'.Claim? <==> p.Take?)
  {}

  lemma OwnToken(s: Mon, t: Tid, m: Move)
    requires Inv(s) && Can(s, t, m)
    ensures var s' := Do(s, t, m);
      s'.sem.count + (if Token(s', t) then 1 else 0) == s.sem.count + (if Token(s, t) then 1 else 0)
  {
    hide Inv, SpinsOk, Spins, S.Inv, S.Can, After, Wanted, Dropped;
    Knows(s, t);
    SemAfter(s, t, m);
    var s', p := Do(s, t, m), s.pc[t];
    if m.Step? {
      if InSem(p) { SemToken(s, t); }
      else { AfterHasIt(p, false, p.SignalWake? && s.Waiters(p.v) == []); }
    }
  }

  lemma TokensAfter(s: Mon, t: Tid, m: Move)
    requires Inv(s) && Can(s, t, m)
    ensures var s' := Do(s, t, m); s'.sem.count + |Tokens(s')| == 1
  {
    var s' := Do(s, t, m);
    SpinsAfter(s, t, m);
    forall u | u in s.pc && u != t ensures Token(s', u) == Token(s, u) { TokenAfter(s, t, m, u); }
    OwnToken(s, t, m);
    hide Token, SpinsOk, S.Inv, PcOk, ChanOk;
    if Token(s', t) { assert Tokens(s') == Tokens(s) + {t}; } else { assert Tokens(s') == Tokens(s) - {t}; }
  }

  lemma DoKeeps(s: Mon, t: Tid, m: Move)
    requires Inv(s) && Can(s, t, m)
    ensures Inv(Do(s, t, m))
  {
    var s' := Do(s, t, m);
    SpinsAfter(s, t, m);
    SemAfter(s, t, m);
    TokensAfter(s, t, m);
    forall u | u in s'.pc ensures PcOk(s', u) { PcAfter(s, t, m, u); }
    forall v ensures ChanOk(s', v) { ChanAfter(s, t, m, v); }
  }

  // ---- Whole runs ----

  ghost predicate Created(s: Mon)
  {
    && S.Created(s.sem) && s.sem.init == 1 && s.sem.pc.Keys == s.pc.Keys
    && s.owner.NoThread? && s.spins == map[] && s.chan == map[]
    && (forall t :: t in s.pc ==> s.pc[t].Outside?)
  }

  ghost predicate IsRun(states: seq<Mon>, moves: seq<(Tid, Move)>)
  {
    && |states| == |moves| + 1 && Created(states[0])
    && (forall i :: 0 <= i < |moves| ==>
          Can(states[i], moves[i].0, moves[i].1) && states[i + 1] == Do(states[i], moves[i].0, moves[i].1))
  }

  /** A lock can be created for any threads. */
  lemma CreatedRun(threads: set<Tid>) returns (s: Mon)
    ensures s.pc.Keys == threads && IsRun([s], [])
  {
    var sem := S.CreatedRun(1, threads);
    s := Mon(sem, S.NoThread, map[], map t | t in threads :: Outside, map[]);
  }

  lemma CreatedKeeps(s: Mon)
    requires Created(s)
    ensures Inv(s)
  {}

  lemma {:induction false} RunsKeep(states: seq<Mon>, moves: seq<(Tid, Move)>, i: nat)
    requires IsRun(states, moves) && i < |states|
    ensures Inv(states[i])
  {
    hide Inv, Created, Can, Do;
    if i == 0 { CreatedKeeps(states[0]); }
    else {
      RunsKeep(states, moves, i - 1);
      DoKeeps(states[i - 1], moves[i - 1].0, moves[i - 1].1);
    }
  }

  /** The count and the number of threads between P and V add up to one; the owner is among those. */
  lemma MutualExclusion(states: seq<Mon>, moves: seq<(Tid, Move)>, i: nat)
    requires IsRun(states, moves) && i < |states|
    ensures states[i].sem.count + |Tokens(states[i])| == 1
    ensures states[i].owner.Held? ==> Tokens(states[i]) == {states[i].owner.t}
    ensures forall t, u :: Token(states[i], t) && Token(states[i], u) ==> t == u
  {
    RunsKeep(states, moves, i);
    var s := states[i];
    forall t, u | Token(s, t) && Token(s, u) ensures t == u { OneToken(s, t, u); }
    hide SpinsOk, PcOk, ChanOk, S.Inv;
    if s.owner.Held? { assert Token(s, s.owner.t); }
  }

  /** No assertion of synch.c fails. */
  ghost predicate AssertionsHold(s: Mon, t: Tid)
    requires t in s.pc && t in s.sem.pc
  {
    var p := s.pc[t];
    // lock_acquire finds that the caller does not hold the lock; the others find that it does
    && (p.Asking? && p.q.ForAcquire? ==> s.owner != S.Held(t))
    && (p.Asking? && (p.q.ForRelease? || p.q.ForWait? || p.q.ForSignal?) ==> s.owner == S.Held(t))
    // after P, nobody owns the lock
    && (p.Claim? ==> s.owner == S.NoThread)
    // whoever goes to sleep holds the channel's spinlock and no other
    && (p.WaitSleep? ==> (forall l :: l in s.spins && s.spins[l] == t <==> l == CvLock(p.v)) && s.sem.lock != S.Held(t))
    && (s.sem.pc[t].PSleep? ==> s.sem.lock == S.Held(t) && (forall l :: l in s.spins ==> s.spins[l] != t))
    // whoever wakes holds the channel's spinlock
    && (p.SignalWake? ==> CvLock(p.v) in s.spins && s.spins[CvLock(p.v)] == t)
    && (s.sem.pc[t].VWake? ==> s.sem.lock == S.Held(t))
  }

  lemma NoPanic(states: seq<Mon>, moves: seq<(Tid, Move)>, i: nat, t: Tid)
    requires IsRun(states, moves) && i < |states| && t in states[i].pc
    ensures t in states[i].sem.pc && AssertionsHold(states[i], t)
  {
    hide Inv, IsRun;
    RunsKeep(states, moves, i);
    var s := states[i];
    Knows(s, t);
    if s.pc[t].Claim? && s.owner.Held? { Knows(s, t); OwnerKnown(s); OneToken(s, t, s.owner.t); }
    SpinsKnown(s, t);
  }

  lemma OwnerKnown(s: Mon)
    requires Inv(s) && s.owner.Held?
    ensures Token(s, s.owner.t)
  {}

  lemma SpinsKnown(s: Mon, t: Tid)
    requires SpinsOk(s) && t in s.pc
    ensures forall l :: l in s.spins && s.spins[l] == t <==> l in Spins(s.pc[t])
  {}

  /** Inside cv_wait, past the point where the lock was given up, and not yet woken. */
  predicate GaveUp(p: Pc, v: nat)
  {
    p == InV(InWait(v)) || p == Unlocked(InWait(v)) || p == WaitSleep(v) || Sleeps(p, v)
  }

  /** A signal finds every thread that gave up the lock to wait for it already on the channel. */
  lemma WaitAtomic(states: seq<Mon>, moves: seq<(Tid, Move)>, i: nat, x: Tid, w: Tid)
    requires IsRun(states, moves) && i < |states| && x in states[i].pc && w in states[i].pc
    requires states[i].pc[x].SignalWake? && GaveUp(states[i].pc[w], states[i].pc[x].v)
    ensures w in states[i].Waiters(states[i].pc[x].v)
  {
    hide Inv, IsRun;
    RunsKeep(states, moves, i);
    var s, v := states[i], states[i].pc[x].v;
    Knows(s, x);
    Knows(s, w);
    ChanIn(s, v);
    if CvLock(v) in Spins(s.pc[w]) { OneHolder(s, CvLock(v), x, w); }
  }

  /** lock_acquire and cv_wait return with the caller as owner. */
  lemma ReturnsOwning(states: seq<Mon>, moves: seq<(Tid, Move)>, i: nat)
    requires IsRun(states, moves) && i < |moves| && moves[i].0 in states[i].pc
    ensures states[i].pc[moves[i].0].Claimed? && moves[i].1.Step? ==>
            states[i + 1].pc[moves[i].0].Outside? && states[i + 1].owner == S.Held(moves[i].0)
  {
    RunsKeep(states, moves, i);
    hide Inv, S.Inv, SpinsOk;
    Knows(states[i], moves[i].0);
  }

  // ---- From call to return ----

  predicate Acquiring(p: Pc, m: Mode)
  {
    || p == Ask(ForAcquire(m)) || p == Asking(ForAcquire(m)) || p == InP(m) || p == Take(m) || p == Claim(m)
    || p == Claimed(m)
  }

  predicate Releasing(p: Pc, m: Mode)
  {
    || p == Ask(ForRelease(m)) || p == Asking(ForRelease(m)) || p == Unlock(m) || p == Disown(m) || p == InV(m)
    || p == Unlocked(m)
  }

  /** cv_wait up to where its caller is woken. */
  predicate GoingToSleep(p: Pc, v: nat)
  {
    || p == Ask(ForWait(v)) || p == Asking(ForWait(v)) || p == WaitLock(v) || Releasing(p, InWait(v))
    || p == WaitSleep(v) || p == WaitListed(v) || p == WaitAsleep(v)
  }

  predicate ComingBack(p: Pc, v: nat)
  {
    p == WaitWoken(v) || p == WaitBack(v) || Acquiring(p, InWait(v))
  }

  predicate Signalling(p: Pc, v: nat, all: bool)
  {
    || p == Ask(ForSignal(v, all)) || p == Asking(ForSignal(v, all)) || p == SignalLock(v, all)
    || p == SignalWake(v, all) || p == SignalDone(v)
  }

  /** Where a thread is that has called q and not returned. */
  predicate Within(p: Pc, q: Query)
  {
    match q
    case ForAcquire(m) => m.Plain? && Acquiring(p, m)
    case ForRelease(m) => m.Plain? && Releasing(p, m)
    case ForWait(v) => GoingToSleep(p, v) || ComingBack(p, v)
    case ForSignal(v, all) => Signalling(p, v, all)
    case ForCaller => p == Ask(q) || p == Asking(q)
  }

  lemma AfterAcquiring(p: Pc, m: Mode, over: bool, empty: bool)
    requires Acquiring(p, m)
    ensures var p' := After(p, over, empty); Acquiring(p', m) || (p'.Outside? && Owns(p).Must? && p.Claimed?)
  {}

  lemma AfterReleasing(p: Pc, m: Mode, over: bool, empty: bool)
    requires Releasing(p, m)
    ensures var p' := After(p, over, empty);
      || Releasing(p', m)
      || (Owns(p).MustNot? && p.Unlocked? && p' == if m.Plain? then Outside else WaitSleep(m.v))
  {}

  lemma AfterWaiting(p: Pc, v: nat, over: bool, empty: bool)
    requires Within(p, ForWait(v))
    ensures var p' := After(p, over, empty);
      Within(p', ForWait(v)) || (p'.Outside? && Owns(p).Must? && p.Claimed?)
  {
    if Acquiring(p, InWait(v)) {
      hide After, Acquiring;
      AfterAcquiring(p, InWait(v), over, empty);
    } else if Releasing(p, InWait(v)) {
      hide After, Releasing;
      AfterReleasing(p, InWait(v), over, empty);
    }
  }

  /** It stays there until it returns, and where it returns from says whether it is the owner. */
  lemma AfterWithin(p: Pc, q: Query, over: bool, empty: bool)
    requires Within(p, q)
    ensures var p' := After(p, over, empty);
      Within(p', q) || (p'.Outside? && (Owns(p).Must? || q.ForCaller? || (q.ForRelease? && Owns(p).MustNot?))
                        && !p.Claim? && !p.Disown? && (Owns(p).Must? ==> !q.ForRelease?))
  {
    match q
    case ForAcquire(m) => hide After, Acquiring; AfterAcquiring(p, m, over, empty);
    case ForRelease(m) => hide After, Releasing; AfterReleasing(p, m, over, empty);
    case ForWait(v) => AfterWaiting(p, v, over, empty);
    case ForSignal(v, all) =>
    case ForCaller =>
  }

  lemma StepWithin(s: Mon, x: Tid, m: Move, t: Tid, q: Query)
    requires Inv(s) && Can(s, x, m) && t in s.pc && Within(s.pc[t], q)
    ensures var s' := Do(s, x, m);
      && t in s'.pc
      && (Within(s'.pc[t], q) || (s'.pc[t].Outside? && x == t && m.Step? && s'.owner == s.owner
                                  && (match q
                                      case ForRelease(_) => s.owner != S.Held(t)
                                      case ForCaller => true
                                      case _ => s.owner == S.Held(t))))
  {
    hide Inv, SpinsOk, S.Inv, Spins;
    Knows(s, t);
    if x != t {
      hide Do, Owns;
      Unmoved(s, x, m, t);
    } else if m.Step? {
      SemAfter(s, t, m);
      var p := s.pc[t];
      hide After, Within;
      AfterWithin(p, q, InSem(p) && Do(s, t, m).sem.pc[t].Idle?, p.SignalWake? && s.Waiters(p.v) == []);
    } else {
      NotOutside(s.pc[t], q);
    }
  }

  lemma NotOutside(p: Pc, q: Query)
    requires Within(p, q)
    ensures !p.Outside?
  {}

  predicate IsBack(s: Mon, t: Tid) { t in s.pc && s.pc[t].Outside? }

  /** Move i is t's call of q, and it has not returned before j. */
  ghost predicate InCall(states: seq<Mon>, moves: seq<(Tid, Move)>, i: nat, j: nat, t: Tid, q: Query)
  {
    && IsRun(states, moves) && i < j < |states| && moves[i] == (t, Call(q))
    && (forall m :: i < m < j ==> !IsBack(states[m], t))
  }

  lemma {:induction false} StaysWithin(states: seq<Mon>, moves: seq<(Tid, Move)>, i: nat, j: nat, t: Tid, q: Query,
                                       m: nat)
    requires InCall(states, moves, i, j, t, q) && i < m < j
    ensures t in states[m].pc && Within(states[m].pc[t], q)
    decreases m
  {
    hide Inv, Within;
    if m == i + 1 {
      CallWithin(states[i], t, q);
    } else {
      StaysWithin(states, moves, i, j, t, q, m - 1);
      RunsKeep(states, moves, m - 1);
      hide Can, Do;
      StepWithin(states[m - 1], moves[m - 1].0, moves[m - 1].1, t, q);
    }
  }

  lemma CallWithin(s: Mon, t: Tid, q: Query)
    requires Can(s, t, Call(q))
    ensures Do(s, t, Call(q)).pc[t] == Ask(q) && Within(Ask(q), q)
  {}

  /**
   lock_acquire, cv_wait, cv_signal and cv_broadcast return with the caller as owner of the lock, and
   lock_release with somebody else or nobody.
   */
  lemma CallReturns(states: seq<Mon>, moves: seq<(Tid, Move)>, i: nat, j: nat, t: Tid, q: Query)
    requires InCall(states, moves, i, j, t, q) && IsBack(states[j], t)
    ensures match q
      case ForAcquire(_) => states[j].owner == S.Held(t)
      case ForRelease(_) => states[j].owner != S.Held(t)
      case ForWait(_) => states[j].owner == S.Held(t)
      case ForSignal(_, _) => states[j].owner == S.Held(t)
      case ForCaller => true
  {
    hide Inv, Within;
    if j == i + 1 {
      CallWithin(states[i], t, q);
    } else {
      StaysWithin(states, moves, i, j, t, q, j - 1);
      RunsKeep(states, moves, j - 1);
      hide Can, Do;
      StepWithin(states[j - 1], moves[j - 1].0, moves[j - 1].1, t, q);
      if Within(states[j].pc[t], q) { NotOutside(states[j].pc[t], q); }
    }
  }

  /** Only a thread's own claim or release changes whether it is the owner. */
  lemma OwnershipStays(states: seq<Mon>, moves: seq<(Tid, Move)>, i: nat, t: Tid)
    requires IsRun(states, moves) && i < |moves| && t in states[i].pc
    requires moves[i] == (t, Step) ==> !states[i].pc[t].Claim? && !states[i].pc[t].Disown?
    ensures states[i + 1].owner == S.Held(t) <==> states[i].owner == S.Held(t)
  {
    if states[i].owner.Held? { OwnerStays(states, moves, i); }
  }

  /** What lock_do_i_hold answers is right, whenever between call and return the field is read. */
  lemma {:induction false} AnswerStays(states: seq<Mon>, moves: seq<(Tid, Move)>, i: nat, j: nat, t: Tid, m: nat)
    requires InCall(states, moves, i, j, t, ForCaller) && i <= m <= j
    ensures states[m].owner == S.Held(t) <==> states[i].owner == S.Held(t)
    decreases m
  {
    if m == i {
    } else {
      AnswerStays(states, moves, i, j, t, m - 1);
      if m - 1 > i { StaysWithin(states, moves, i, j, t, ForCaller, m - 1); }
      OwnershipStays(states, moves, m - 1, t);
    }
  }

  // ---- Sleeping and waking ----

  /** Move k takes t off the channel of v: it is a step of a signal or broadcast. */
  ghost predicate WokenBy(states: seq<Mon>, moves: seq<(Tid, Move)>, k: nat, t: Tid, v: nat)
    requires IsRun(states, moves) && k < |moves|
  {
    var s, x := states[k], moves[k].0;
    && moves[k].1.Step? && x in s.pc && s.pc[x].SignalWake? && s.pc[x].v == v
    && s.Waiters(v) != [] && s.Waiters(v)[0] == t
  }

  lemma StepWakes(s: Mon, x: Tid, m: Move, t: Tid, v: nat)
    requires Inv(s) && Can(s, x, m) && t in s.pc && GoingToSleep(s.pc[t], v)
    ensures var s' := Do(s, x, m);
      && t in s'.pc && !s'.pc[t].Outside?
      && (GoingToSleep(s'.pc[t], v)
          || (m.Step? && s.pc[x].SignalWake? && s.pc[x].v == v && s.Waiters(v) != [] && s.Waiters(v)[0] == t))
  {
    hide Inv, SpinsOk, S.Inv, Spins;
    Knows(s, t);
    Knows(s, x);
    SemAfter(s, x, m);
    if x == t {
      hide After;
      var p := s.pc[t];
      if m.Step? {
        AfterSleeping(p, v, InSem(p) && Do(s, t, m).sem.pc[t].Idle?, p.SignalWake? && s.Waiters(p.v) == []);
      }
    } else {
      hide After, GoingToSleep;
      SleepingIs(s.pc[t], v);
    }
  }

  lemma AfterSleeping(p: Pc, v: nat, over: bool, empty: bool)
    requires GoingToSleep(p, v)
    ensures GoingToSleep(After(p, over, empty), v)
  {}

  lemma SleepingIs(p: Pc, v: nat)
    requires GoingToSleep(p, v)
    ensures !p.Outside? && (p.WaitAsleep? ==> p.v == v)
  {}

  /** cv_wait does not return of itself: a signal or broadcast on the same variable has taken its caller
      off the channel. */
  lemma {:induction false} WaitIsWoken(states: seq<Mon>, moves: seq<(Tid, Move)>, i: nat, j: nat, t: Tid, v: nat)
    returns (k: nat)
    requires InCall(states, moves, i, j, t, ForWait(v))
    requires IsBack(states[j], t) || (t in states[j].pc && ComingBack(states[j].pc[t], v))
    ensures i < k < j && WokenBy(states, moves, k, t, v)
    decreases j
  {
    hide Inv, GoingToSleep, ComingBack, Within;
    if j == i + 1 {
      CallWithin(states[i], t, ForWait(v));
      NotYet(v);
    } else {
      k := j - 1;
      StaysWithin(states, moves, i, j, t, ForWait(v), j - 1);
      WaitPhases(states[j - 1].pc[t], v);
      if ComingBack(states[j - 1].pc[t], v) {
        k := WaitIsWoken(states, moves, i, j - 1, t, v);
      } else {
        RunsKeep(states, moves, j - 1);
        hide Can, Do;
        StepWakes(states[j - 1], moves[j - 1].0, moves[j - 1].1, t, v);
        if t in states[j].pc { PhasesApart(states[j].pc[t], v); }
      }
    }
  }

  lemma NotYet(v: nat)
    ensures !ComingBack(Ask(ForWait(v)), v)
  {}

  lemma WaitPhases(p: Pc, v: nat)
    requires Within(p, ForWait(v))
    ensures GoingToSleep(p, v) || ComingBack(p, v)
  {}

  lemma PhasesApart(p: Pc, v: nat)
    ensures GoingToSleep(p, v) ==> !ComingBack(p, v) && !p.Outside?
  {}

  /** What a step does to the channel of v while t signals it: only t takes threads off, and nobody joins
      while t has its lock. */
  lemma SignalStep(s: Mon, x: Tid, m: Move, t: Tid, v: nat, all: bool)
    requires Inv(s) && Can(s, x, m) && t in s.pc && Signalling(s.pc[t], v, all)
    ensures var q, q', p := s.Waiters(v), Do(s, x, m).Waiters(v), s.pc[t];
      if x == t then q' == if m.Step? && p.SignalWake? && q != [] then q[1..] else q
      else q' == q || (q' == q + [x] && !p.SignalWake? && !p.SignalDone?)
  {
    hide Inv, S.Inv, After, Wanted, Dropped;
    Knows(s, t);
    Knows(s, x);
    hide SpinsOk;
    if x != t && s.pc[x].WaitSleep? && s.pc[x].v == v && CvLock(v) in Spins(s.pc[t]) { OneHolder(s, CvLock(v), t, x); }
  }

  /** Where a signal stands: the first waiter has gone, or all of them. */
  ghost predicate SignalDoes(s: Mon, t: Tid, v: nat, all: bool, was: seq<Tid>)
  {
    && t in s.pc && Signalling(s.pc[t], v, all)
    && (if !s.pc[t].SignalDone? then all || was <= s.Waiters(v) else Woke(s.Waiters(v), all, was))
  }

  /** What a signal leaves of the waiters: none for a broadcast, else all but the first. */
  ghost predicate Woke(q: seq<Tid>, all: bool, was: seq<Tid>)
  {
    if all then q == [] else was == [] || (was[1..] <= q && was[0] !in q)
  }

  lemma SignalGoes(s: Mon, x: Tid, m: Move, t: Tid, v: nat, all: bool, was: seq<Tid>)
    requires Inv(s) && Can(s, x, m) && SignalDoes(s, t, v, all, was)
    ensures var s' := Do(s, x, m);
      SignalDoes(s', t, v, all, was) || (IsBack(s', t) && Woke(s'.Waiters(v), all, was))
  {
    hide Inv, S.Inv, SpinsOk;
    SignalStep(s, x, m, t, v, all);
    ChanIn(s, v);
    StepWithin(s, x, m, t, ForSignal(v, all));
    if x == t {
      if m.Call? { NotOutside(s.pc[t], ForSignal(v, all)); }
    } else {
      Unmoved(s, x, m, t);
      hide Do;
    }
  }

  lemma {:induction false} SignalTracks(states: seq<Mon>, moves: seq<(Tid, Move)>, i: nat, j: nat, t: Tid, v: nat,
                                        all: bool)
    requires InCall(states, moves, i, j, t, ForSignal(v, all))
    ensures SignalDoes(states[j], t, v, all, states[i].Waiters(v))
            || (IsBack(states[j], t) && Woke(states[j].Waiters(v), all, states[i].Waiters(v)))
    decreases j
  {
    hide Inv, SignalDoes, Woke;
    if j == i + 1 {
      SignalStarts(states[i], t, v, all);
    } else {
      SignalTracks(states, moves, i, j - 1, t, v, all);
      RunsKeep(states, moves, j - 1);
      hide Can, Do;
      SignalGoes(states[j - 1], moves[j - 1].0, moves[j - 1].1, t, v, all, states[i].Waiters(v));
    }
  }

  lemma SignalStarts(s: Mon, t: Tid, v: nat, all: bool)
    requires Can(s, t, Call(ForSignal(v, all)))
    ensures SignalDoes(Do(s, t, Call(ForSignal(v, all))), t, v, all, s.Waiters(v))
  {}

  /**
   When cv_broadcast returns nobody is on the channel; when cv_signal returns, the thread that was first
   on it at the call is not, and the others are, in order.
   */
  lemma SignalWakes(states: seq<Mon>, moves: seq<(Tid, Move)>, i: nat, j: nat, t: Tid, v: nat, all: bool)
    requires InCall(states, moves, i, j, t, ForSignal(v, all)) && IsBack(states[j], t)
    ensures all ==> states[j].Waiters(v) == []
    ensures !all && states[i].Waiters(v) != [] ==>
      states[i].Waiters(v)[1..] <= states[j].Waiters(v) && states[i].Waiters(v)[0] !in states[j].Waiters(v)
  {
    hide Inv, IsRun;
    SignalTracks(states, moves, i, j, t, v, all);
  }

  /** The owner stays the owner until it clears the field itself. */
  lemma OwnerStays(states: seq<Mon>, moves: seq<(Tid, Move)>, i: nat)
    requires IsRun(states, moves) && i < |moves| && states[i].owner.Held?
    ensures states[i + 1].owner == states[i].owner
            || (moves[i].0 == states[i].owner.t && moves[i].1.Step? && states[i].pc[moves[i].0].Disown?)
  {
    RunsKeep(states, moves, i);
    var s, t := states[i], moves[i].0;
    if moves[i].1.Step? && s.pc[t].Claim? { OwnerKnown(s); OneToken(s, t, s.owner.t); }
    if moves[i].1.Step? && s.pc[t].Disown? { assert PcOk(s, t); }
  }

  /** Who holds the spinlock that t is about to take; t itself if it is free. */
  function Ahead(s: Mon, t: Tid): (u: Tid)
    requires t in s.pc
  {
    if Wanted(s.pc[t]).Wants? && Wanted(s.pc[t]).l in s.spins then s.spins[Wanted(s.pc[t]).l] else t
  }

  /** The thread that a blocked thread is waiting for in the end. */
  function Runner(s: Mon, t: Tid): (u: Tid)
    requires t in s.pc
  {
    var a := Ahead(s, t);
    var b := if a in s.pc then Ahead(s, a) else a;
    if b in s.pc && InSem(s.pc[b]) && s.sem.lock.Held? then s.sem.lock.t else b
  }

  /**
   A thread in the middle of an operation, and not asleep, can move or waits for one that can:
   spinlocks do not deadlock.
   */
  lemma NoSpinDeadlock(states: seq<Mon>, moves: seq<(Tid, Move)>, i: nat, t: Tid)
    requires IsRun(states, moves) && i < |states| && t in states[i].pc
    requires Active(states[i], t)
    ensures Can(states[i], Runner(states[i], t), Step)
  {
    hide Inv, IsRun;
    RunsKeep(states, moves, i);
    RunnerRuns(states[i], t);
  }

  predicate Active(s: Mon, t: Tid)
  {
    t in s.pc && t in s.sem.pc && !s.pc[t].Outside? && !s.pc[t].WaitAsleep? && !s.sem.pc[t].PAsleep?
  }

  lemma HolderActive(s: Mon, t: Tid, l: Spin)
    requires Inv(s) && t in s.pc && l in Spins(s.pc[t])
    ensures Active(s, t)
    ensures l == LkLock ==> Wanted(s.pc[t]).Nothing?
    ensures Wanted(s.pc[t]).Wants? ==> Wanted(s.pc[t]).l == LkLock
  {}

  lemma AheadActive(s: Mon, t: Tid)
    requires Inv(s) && Active(s, t)
    ensures Active(s, Ahead(s, t))
    ensures Wanted(s.pc[Ahead(s, t)]).Wants? && Wanted(s.pc[Ahead(s, t)]).l in s.spins ==>
            && Wanted(s.pc[t]).Wants? && Wanted(s.pc[t]).l in s.spins && Wanted(s.pc[t]).l != LkLock
            && Wanted(s.pc[Ahead(s, t)]).l == LkLock
  {
    hide Inv, S.Inv, Wanted, Spins;
    Knows(s, t);
    if Wanted(s.pc[t]).Wants? && Wanted(s.pc[t]).l in s.spins { HolderActive(s, Ahead(s, t), Wanted(s.pc[t]).l); }
  }

  lemma RunnerRuns(s: Mon, t: Tid)
    requires Inv(s) && Active(s, t)
    ensures Can(s, Runner(s, t), Step)
  {
    hide Inv, S.Inv, SpinsOk, Wanted, Ahead, Spins;
    Knows(s, t);
    AheadActive(s, t);
    AheadActive(s, Ahead(s, t));
    LastRuns(s, Ahead(s, Ahead(s, t)));
  }

  lemma LastRuns(s: Mon, b: Tid)
    requires Inv(s) && Active(s, b) && (Wanted(s.pc[b]).Nothing? || Wanted(s.pc[b]).l !in s.spins)
    ensures Can(s, if InSem(s.pc[b]) && s.sem.lock.Held? then s.sem.lock.t else b, Step)
  {
    hide Inv, SpinsOk, Spins;
    Knows(s, b);
    if s.sem.lock.Held? { S.HolderRuns(s.sem); Knows(s, s.sem.lock.t); }
  }
}
