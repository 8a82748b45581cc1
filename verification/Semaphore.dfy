/**
 The counting semaphore, in every interleaving of P and V by any number of
 threads.  The spinlock and the wait channel are as the scheduler provides
 them: a lock is free or has one holder, and a sleeper is on the channel
 before the lock is let go.
 */
module Semaphore {

  type Tid(==) = nat

  datatype Holder = NoThread | Held(t: Tid)

  /** Where a thread is in P or V. */
  datatype Pc =
    | Idle
    | PStart                  // about to take the lock
    | PCheck(again: bool)     // about to look at the count, for the first time or after being woken
    | PCount(again: bool)     // has seen more than zero, about to load the count
    | PLoaded(again: bool, n: int)    // about to store n - 1
    | PSleep                  // has seen zero, about to go on the channel
    | PListed                 // on the channel, about to let go of the lock
    | PAsleep
    | PWoken                  // off the channel, about to take the lock again
    | PDone                   // has counted down, about to let go of the lock
    | VStart
    | VCount                  // about to load the count
    | VLoaded(n: int)         // about to store n + 1
    | VWake                   // about to wake a sleeper
    | VDone

  datatype Sem = Sem(init: nat, count: int, lock: Holder, waiters: seq<Tid>, pc: map<Tid, Pc>)

  datatype Move = CallP | CallV | Step

  predicate Can(s: Sem, t: Tid, m: Move)
  {
    && t in s.pc
    && match m
       case CallP => s.pc[t].Idle?
       case CallV => s.pc[t].Idle?
       case Step =>
         match s.pc[t]
         case Idle => false
         case PAsleep => false
         case PStart => s.lock.NoThread?
         case PWoken => s.lock.NoThread?
         case VStart => s.lock.NoThread?
         case _ => true
  }

  function Do(s: Sem, t: Tid, m: Move): (s': Sem)
    requires Can(s, t, m)
  {
    match m
    case CallP => s.(pc := s.pc[t := PStart])
    case CallV => s.(pc := s.pc[t := VStart])
    case Step =>
      match s.pc[t]
      case PStart => s.(lock := Held(t), pc := s.pc[t := PCheck(false)])
      case PCheck(again) =>
        s.(pc := s.pc[t := if s.count == 0 then PSleep else PCount(again)])
      case PCount(again) => s.(pc := s.pc[t := PLoaded(again, s.count)])
      case PLoaded(_, n) => s.(count := n - 1, pc := s.pc[t := PDone])
      case PSleep => s.(waiters := s.waiters + [t], pc := s.pc[t := PListed])
      case PListed => s.(lock := NoThread, pc := s.pc[t := PAsleep])
      case PWoken => s.(lock := Held(t), pc := s.pc[t := PCheck(true)])
      case PDone => s.(lock := NoThread, pc := s.pc[t := Idle])
      case VStart => s.(lock := Held(t), pc := s.pc[t := VCount])
      case VCount => s.(pc := s.pc[t := VLoaded(s.count)])
      case VLoaded(n) => s.(count := n + 1, pc := s.pc[t := VWake])
      case VWake =>
        if s.waiters == [] then s.(pc := s.pc[t := VDone])
        else s.(waiters := s.waiters[1..], pc := s.pc[s.waiters[0] := PWoken][t := VDone])
      case VDone => s.(lock := NoThread, pc := s.pc[t := Idle])
  }

  predicate Locked(p: Pc)
  {
    || p.PCheck? || p.PCount? || p.PLoaded? || p.PSleep? || p.PListed? || p.PDone?
    || p.VCount? || p.VLoaded? || p.VWake? || p.VDone?
  }

  predicate Waiting(p: Pc) { p.PListed? || p.PAsleep? }

  /** Woken, and has neither counted down nor found zero again. */
  predicate Rechecking(p: Pc) { p.PWoken? || ((p.PCheck? || p.PCount? || p.PLoaded?) && p.again) }

  ghost function WokenIn(pc: map<Tid, Pc>): (w: set<Tid>)
  {
    set t | t in pc && Rechecking(pc[t])
  }

  ghost function Woken(s: Sem): (w: set<Tid>)
  {
    WokenIn(s.pc)
  }

  /** Some V has counted up and not yet woken anybody. */
  predicate WakeOwed(s: Sem)
  {
    s.lock.Held? && s.lock.t in s.pc && s.pc[s.lock.t].VWake?
  }

  ghost predicate LockOk(s: Sem)
  {
    && (s.lock.Held? ==> s.lock.t in s.pc && Locked(s.pc[s.lock.t]))
    && (forall t :: t in s.pc && Locked(s.pc[t]) ==> s.lock == Held(t))
  }

  ghost predicate ChannelOk(s: Sem)
  {
    && (forall i, j :: 0 <= i < j < |s.waiters| ==> s.waiters[i] != s.waiters[j])
    && (forall t :: t in s.waiters <==> t in s.pc && Waiting(s.pc[t]))
  }

  /** What the holder of the lock has seen of the count is still so; where the code asserts it, it is above zero. */
  predicate SeenBy(p: Pc, count: int)
  {
    && (p.PSleep? || p.PListed? ==> count == 0)
    && (p.PCount? || p.VWake? ==> count > 0)
    && (p.PLoaded? ==> p.n == count > 0)
    && (p.VLoaded? ==> p.n == count)
  }

  ghost predicate Inv(s: Sem)
  {
    && LockOk(s) && ChannelOk(s)
    && s.count >= 0
    && (s.lock.Held? ==> SeenBy(s.pc[s.lock.t], s.count))
    && (s.waiters != [] ==> s.count <= |Woken(s)| + (if WakeOwed(s) then 1 else 0))
  }

  lemma ChannelAfter(s: Sem, t: Tid, m: Move)
    requires Inv(s) && Can(s, t, m)
    ensures ChannelOk(Do(s, t, m))
  {
    var s' := Do(s, t, m);
    if m.Step? && s.pc[t].VWake? && s.waiters != [] {
      assert s.waiters[0] in s.waiters;
      forall u ensures u in s.waiters[1..] <==> u in s.waiters && u != s.waiters[0] {
        if u in s.waiters && u != s.waiters[0] {
          var i :| 0 <= i < |s.waiters| && s.waiters[i] == u;
          assert s.waiters[1..][i - 1] == u;
        }
      }
    }
  }

  lemma LockAfter(s: Sem, t: Tid, m: Move)
    requires Inv(s) && Can(s, t, m)
    ensures LockOk(Do(s, t, m))
  {
    if m.Step? && s.pc[t].VWake? && s.waiters != [] { assert s.waiters[0] in s.waiters; }
  }

  /** How the set of woken threads changes. */
  lemma WokenAfter(s: Sem, t: Tid, m: Move)
    requires Can(s, t, m) && !(m.Step? && s.pc[t].VWake? && s.waiters != [])
    ensures Woken(Do(s, t, m)) ==
      if m.Step? && (s.pc[t].PLoaded? || (s.pc[t].PCheck? && s.count == 0)) then Woken(s) - {t} else Woken(s)
  {}

  lemma WokenByV(s: Sem, t: Tid)
    requires ChannelOk(s) && Can(s, t, Step) && s.pc[t].VWake? && s.waiters != []
    ensures Woken(Do(s, t, Step)) == Woken(s) + {s.waiters[0]} && s.waiters[0] !in Woken(s)
  {}

  /** Only the holder of the lock changes the count, or what it remembers of it. */
  lemma SeenAfter(s: Sem, t: Tid, m: Move)
    requires Inv(s) && Can(s, t, m)
    ensures var s' := Do(s, t, m);
      s'.count >= 0 && (s'.lock.Held? && s'.lock.t in s'.pc ==> SeenBy(s'.pc[s'.lock.t], s'.count))
  {}

  lemma OwedByV(s: Sem, t: Tid)
    requires Inv(s) && Can(s, t, Step) && s.pc[t].VWake? && s.waiters != []
    ensures var s' := Do(s, t, Step);
      s'.count <= |Woken(s')|
  {
    WokenByV(s, t);
    hide ChannelOk, WokenIn;
  }

  lemma OwedElse(s: Sem, t: Tid, m: Move)
    requires Inv(s) && Can(s, t, m) && !(m.Step? && s.pc[t].VWake?)
    ensures var s' := Do(s, t, m);
      s'.waiters != [] ==> s'.count <= |Woken(s')| + (if WakeOwed(s') then 1 else 0)
  {
    hide Inv, WokenIn;
    InvKnows(s, t);
    WokenAfter(s, t, m);
    WokenHas(s, t);
    if t in Woken(s) { assert |Woken(s) - {t}| == |Woken(s)| - 1; }
  }

  /** The invariant as it concerns one thread, and the bound on the count. */
  lemma InvKnows(s: Sem, t: Tid)
    requires Inv(s) && t in s.pc
    ensures s.count >= 0 && SeenBy(s.pc[t], s.count) && (Locked(s.pc[t]) ==> s.lock == Held(t))
    ensures s.lock.Held? ==> s.lock.t in s.pc
    ensures s.waiters != [] ==> s.count <= |Woken(s)| + (if WakeOwed(s) then 1 else 0)
  {}

  lemma WokenHas(s: Sem, t: Tid)
    ensures t in Woken(s) <==> t in s.pc && Rechecking(s.pc[t])
  {}

  lemma OwedAfter(s: Sem, t: Tid, m: Move)
    requires Inv(s) && Can(s, t, m)
    ensures var s' := Do(s, t, m);
      s'.waiters != [] ==> s'.count <= |Woken(s')| + (if WakeOwed(s') then 1 else 0)
  {
    hide Inv, WokenIn;
    if !(m.Step? && s.pc[t].VWake?) { OwedElse(s, t, m); }
    else if s.waiters != [] { OwedByV(s, t); }
  }

  lemma DoKeeps(s: Sem, t: Tid, m: Move)
    requires Inv(s) && Can(s, t, m)
    ensures Inv(Do(s, t, m))
  {
    ChannelAfter(s, t, m);
    LockAfter(s, t, m);
    SeenAfter(s, t, m);
    OwedAfter(s, t, m);
    hide ChannelOk, WokenIn;
  }

  /** A new semaphore, and threads that are about to use it. */
  ghost predicate Created(s: Sem)
  {
    && s.count == s.init && s.lock.NoThread? && s.waiters == []
    && (forall t :: t in s.pc ==> s.pc[t].Idle?)
  }

  ghost predicate IsRun(states: seq<Sem>, moves: seq<(Tid, Move)>)
  {
    && |states| == |moves| + 1 && Created(states[0])
    && (forall i :: 0 <= i < |moves| ==>
          && Can(states[i], moves[i].0, moves[i].1) && states[i + 1] == Do(states[i], moves[i].0, moves[i].1))
  }

  /** A semaphore can be created with any count, for any threads. */
  lemma CreatedRun(init: nat, threads: set<Tid>) returns (s: Sem)
    ensures s.init == init && s.pc.Keys == threads && IsRun([s], [])
  {
    s := Sem(init, init, NoThread, [], map t | t in threads :: Idle);
  }

  lemma {:induction false} RunsKeep(states: seq<Sem>, moves: seq<(Tid, Move)>, i: nat)
    requires IsRun(states, moves) && i < |states|
    ensures Inv(states[i]) && states[i].init == states[0].init
  {
    if i == 0 {
    } else {
      RunsKeep(states, moves, i - 1);
      DoKeeps(states[i - 1], moves[i - 1].0, moves[i - 1].1);
    }
  }

  // ---- Counting calls ----

  predicate Down(p: Pc) { p.PDone? }

  predicate Up(p: Pc) { p.VWake? || p.VDone? }

  /** The threads in P that have stored the count. */
  ghost function PastP(s: Sem): (ts: set<Tid>) { set t | t in s.pc && Down(s.pc[t]) }

  /** The threads in V that have stored the count. */
  ghost function PastV(s: Sem): (ts: set<Tid>) { set t | t in s.pc && Up(s.pc[t]) }

  /** The move makes a P, or a V, return. */
  predicate Returns(s: Sem, t: Tid, m: Move, v: bool)
  {
    t in s.pc && m.Step? && (if v then s.pc[t].VDone? else s.pc[t].PDone?)
  }

  /** How many of the first i moves of a run make a P, or a V, return. */
  function Returned(states: seq<Sem>, moves: seq<(Tid, Move)>, i: nat, v: bool): (n: nat)
    requires |states| == |moves| + 1 && i <= |moves|
    ensures n <= i
  {
    if i == 0 then 0
    else
      Returned(states, moves, i - 1, v)
      + (if Returns(states[i - 1], moves[i - 1].0, moves[i - 1].1, v) then 1 else 0)
  }

  /** Only its own steps take a thread past the store and out of the call. */
  lemma PastAfter(s: Sem, t: Tid, m: Move)
    requires Inv(s) && Can(s, t, m)
    ensures var s' := Do(s, t, m);
      && PastP(s') == (if m.Step? && s.pc[t].PLoaded? then PastP(s) + {t}
                       else if Returns(s, t, m, false) then PastP(s) - {t} else PastP(s))
      && PastV(s') == (if m.Step? && s.pc[t].VLoaded? then PastV(s) + {t}
                       else if Returns(s, t, m, true) then PastV(s) - {t} else PastV(s))
  {
    if m.Step? && s.pc[t].VWake? && s.waiters != [] { assert s.waiters[0] in s.waiters; }
  }

  lemma Balance(s: Sem, t: Tid, m: Move)
    requires Inv(s) && Can(s, t, m)
    ensures var s' := Do(s, t, m);
      s'.count + |PastP(s')| - |PastV(s')| + (if Returns(s, t, m, false) then 1 else 0)
      == s.count + |PastP(s)| - |PastV(s)| + (if Returns(s, t, m, true) then 1 else 0)
  {
    hide Inv, PastP, PastV;
    InvKnows(s, t);
    PastAfter(s, t, m);
    PastIn(s, t);
  }

  lemma PastIn(s: Sem, t: Tid)
    ensures t in PastP(s) <==> t in s.pc && Down(s.pc[t])
    ensures t in PastV(s) <==> t in s.pc && Up(s.pc[t])
  {}

  /** Nobody is past a store in a new semaphore. */
  lemma NonePast(s: Sem)
    requires Created(s)
    ensures PastP(s) == {} && PastV(s) == {}
  {}

  /**
   The count is the initial one, up one for every V and down one for every P, of those that have
   returned and those on their way out: no load and store of the count is torn by another.
   */
  lemma {:induction false} CountExact(states: seq<Sem>, moves: seq<(Tid, Move)>, i: nat)
    requires IsRun(states, moves) && i < |states|
    ensures states[i].count == states[0].init
            + Returned(states, moves, i, true) + |PastV(states[i])|
            - Returned(states, moves, i, false) - |PastP(states[i])|
  {
    hide Inv, PastP, PastV;
    if i == 0 {
      NonePast(states[0]);
    } else {
      CountExact(states, moves, i - 1);
      RunsKeep(states, moves, i - 1);
      Balance(states[i - 1], moves[i - 1].0, moves[i - 1].1);
    }
  }

  /** The assertions of P and V about the count hold, and what a thread has loaded is still the count when it stores. */
  lemma CountAsserted(states: seq<Sem>, moves: seq<(Tid, Move)>, i: nat, t: Tid)
    requires IsRun(states, moves) && i < |states| && t in states[i].pc
    ensures states[i].count >= 0 && SeenBy(states[i].pc[t], states[i].count)
  {
    RunsKeep(states, moves, i);
  }

  /** No wakeup is lost: threads sleep only if those already woken, and a V about to wake one, can use up the count. */
  lemma NoLostWakeup(states: seq<Sem>, moves: seq<(Tid, Move)>, i: nat)
    requires IsRun(states, moves) && i < |states| && states[i].waiters != []
    ensures states[i].count <= |Woken(states[i])| + (if WakeOwed(states[i]) then 1 else 0)
    ensures states[i].count > 0 ==>
      WakeOwed(states[i]) || exists t :: t in states[i].pc && Rechecking(states[i].pc[t])
  {
    RunsKeep(states, moves, i);
    if states[i].count > 0 && !WakeOwed(states[i]) {
      assert Woken(states[i]) != {};
      var t :| t in Woken(states[i]);
    }
  }

  /** Whoever has the lock can go on. */
  lemma HolderRuns(s: Sem)
    requires Inv(s) && s.lock.Held?
    ensures Can(s, s.lock.t, Step)
  {}

  /** When nobody can move but by a new call, threads are asleep only if the count is zero. */
  lemma QuietMeansEmpty(states: seq<Sem>, moves: seq<(Tid, Move)>, i: nat)
    requires IsRun(states, moves) && i < |states|
    requires forall t :: t in states[i].pc ==> !Can(states[i], t, Step)
    ensures states[i].waiters != [] ==> states[i].count == 0
  {
    RunsKeep(states, moves, i);
    if states[i].lock.Held? { HolderRuns(states[i]); }
    if states[i].waiters != [] { NoLostWakeup(states, moves, i); }
  }

  /** Sleepers are woken in the order in which they went to sleep. */
  lemma ChannelOrder(states: seq<Sem>, moves: seq<(Tid, Move)>, i: nat)
    requires IsRun(states, moves) && i < |moves|
    ensures var q, q' := states[i].waiters, states[i + 1].waiters;
      q' == q || q' == q + [moves[i].0] || (q != [] && q' == q[1..])
  {}
}
