/**
 The thread switch with everything it stands on: spinlocks, interrupt levels,
 run queues, wait channels, zombies, forking, waking, migration, interrupts
 and the idle loop, on any number of processors and threads.

 A run is any interleaving of single steps of the processors.  Each step reads
 or writes at most one location that other processors can reach without
 holding a lock; longer stretches of code are stepped through one by one, so
 that, for instance, a sleeping thread can be woken before it has stored its
 own new state.
 */
module Scheduler {

  type Tid(==) = nat

  /** Every list a thread can be on.  Hand(c) is the private list, or local variable, of the code running on c. */
  datatype ListName = RunQueue(c: nat) | Waiters(w: nat) | Zombies(c: nat) | Hand(c: nat)

  datatype Place = Nowhere | On(list: ListName)

  datatype LockName = QueueLock(c: nat) | ChannelLock(w: nat) | OtherLock(id: nat)

  datatype Holder = NoCpu | By(c: nat)

  datatype Spinlock = Spinlock(word: bool, holder: Holder)

  datatype ThreadState = Run | Ready | Sleep | Zombie

  /** What a thread asks thread_switch to become. */
  datatype Goal = ToReady | ToSleep(w: nat) | ToZombie

  /** Where a thread's control is when it is not inside a spinlock operation. */
  datatype Point =
    | Work                                // any kernel or user code outside the scheduler
    | Collecting(w: nat)                  // wakeall, emptying the channel onto its own list
    | Waking                              // about to make the threads in hand runnable
    | Placing(d: nat)                     // make_runnable, holding the target's run-queue lock
    | Placed(d: nat)                      // make_runnable, about to unlock
    | Peek(d: nat)                        // migration, reading a queue's length
    | Taking | Sending | Giving(d: nat) | Returning      // migration, by the lock it holds
    | Enqueue(goal: Goal, saved: int)     // thread_switch, run queue locked
    | Unguard(w: nat, saved: int)         // on the channel, about to unlock it
    | StoreState(goal: Goal, saved: int)  // about to store the new state
    | Pick(saved: int)                    // looking for the next thread
    | Idling(saved: int)                  // in cpu_idle
    | Resumed(saved: int)                 // back from the context switch, or a new thread
    | Exorcising(saved: int)              // destroying zombies
    | Restoring(saved: int)               // nothing to switch to

  /** Where in a spinlock operation control is. */
  datatype Phase =
    | Go
    | Spinning(l: LockName)               // level raised and counted, waiting for the word
    | Won(l: LockName)                    // test-and-set succeeded, holder not yet stored
    | Dropping(l: LockName)               // holder cleared, word not yet

  /** Whether a thread is running an interrupt handler, and from where. */
  datatype Frame = NoInterrupt | FromWork | FromIdle(saved: int)

  datatype Thread = Thread(cpu: nat, state: ThreadState, curspl: int, ipl: int,
                           frame: Frame, at: Point, phase: Phase)

  datatype Cpu = Cpu(cur: Tid, spinlocks: int, idle: bool, irqOn: bool)

  const FREE := Spinlock(false, NoCpu)

  // ---- Interrupt levels ----

  /** splraise */
  function Raise(t: Thread, p: Cpu): (r: (Thread, Cpu))
  {
    (t.(ipl := t.ipl + 1), if t.ipl == 0 then p.(irqOn := false) else p)
  }

  /** spllower */
  function Lower(t: Thread, p: Cpu): (r: (Thread, Cpu))
  {
    (t.(ipl := t.ipl - 1), if t.ipl - 1 == 0 then p.(irqOn := true) else p)
  }

  /** splx */
  function Splx(t: Thread, p: Cpu, spl: int): (r: (Thread, Cpu))
  {
    if t.curspl < spl then
      var (t', p') := Raise(t, p); (t'.(curspl := spl), p')
    else if t.curspl > spl then
      Lower(t.(curspl := spl), p)
    else (t, p)
  }

  // ---- The machine ----

  datatype State = State(
    cpus: seq<Cpu>,
    threads: map<Tid, Thread>,
    locks: map<LockName, Spinlock>,        // a lock not mentioned is free
    lists: map<ListName, seq<Tid>>,        // a list not mentioned is empty
    place: map<Tid, Place>,                // where each thread is; no step depends on it
    unidle: set<nat>                       // processors with an unidle interrupt pending
  ) {
    ghost predicate Shape()
    {
      && |cpus| > 0 && place.Keys == threads.Keys
      && (forall c :: 0 <= c < |cpus| ==> cpus[c].cur in threads)
      && (forall n, i :: 0 <= i < |List(n)| ==> List(n)[i] in threads)
    }

    function Cur(c: nat): (t: Tid)
      requires c < |cpus|
    {
      cpus[c].cur
    }

    /** The thread processor c is running. */
    function Thr(c: nat): (t: Thread)
      requires c < |cpus| && cpus[c].cur in threads
    {
      threads[cpus[c].cur]
    }

    function LockOf(l: LockName): (k: Spinlock)
    {
      if l in locks then locks[l] else FREE
    }

    function List(n: ListName): (q: seq<Tid>)
    {
      if n in lists then lists[n] else []
    }

    ghost function HeldBy(c: nat): (h: set<LockName>)
    {
      set l | l in locks && locks[l].holder == By(c)
    }

    // Single updates.

    function Local(c: nat, t: Thread, p: Cpu): (s: State)
      requires c < |cpus| && cpus[c].cur in threads
    {
      this.(threads := threads[cpus[c].cur := t], cpus := cpus[c := p])
    }

    function Goto(c: nat, at: Point): (s: State)
      requires c < |cpus| && cpus[c].cur in threads
    {
      Local(c, Thr(c).(at := at), cpus[c])
    }

    function SetSpl(c: nat, spl: int, at: Point): (s: State)
      requires c < |cpus| && cpus[c].cur in threads
    {
      var (t, p) := Splx(Thr(c), cpus[c], spl);
      Local(c, t.(at := at), p)
    }

    /** spinlock_acquire up to its spin loop; control goes on at `at` once the lock is held. */
    function BeginAcquire(c: nat, l: LockName, at: Point): (s: State)
      requires c < |cpus| && cpus[c].cur in threads
    {
      var (t, p) := Raise(Thr(c), cpus[c]);
      Local(c, t.(phase := Spinning(l), at := at), p.(spinlocks := p.spinlocks + 1))
    }

    /** spinlock_release up to the store that frees the word. */
    function BeginRelease(c: nat, l: LockName, at: Point): (s: State)
      requires c < |cpus| && cpus[c].cur in threads
    {
      Local(c, Thr(c).(phase := Dropping(l), at := at), cpus[c].(spinlocks := cpus[c].spinlocks - 1))
      .(locks := locks[l := LockOf(l).(holder := NoCpu)])
    }

    function SetThread(t: Tid, x: Thread): (s: State)
      requires t in threads
    {
      this.(threads := threads[t := x])
    }

    /** thread_destroy */
    function Forget(t: Tid): (s: State)
    {
      this.(threads := threads - {t}, place := place - {t})
    }

    function RemHead(n: ListName): (s: State)
      requires List(n) != []
    {
      this.(lists := lists[n := List(n)[1..]], place := place[List(n)[0] := Nowhere])
    }

    function RemTail(n: ListName): (s: State)
      requires List(n) != []
    {
      var k := |List(n)| - 1;
      this.(lists := lists[n := List(n)[..k]], place := place[List(n)[k] := Nowhere])
    }

    function AddTail(n: ListName, t: Tid): (s: State)
    {
      this.(lists := lists[n := List(n) + [t]], place := place[t := On(n)])
    }

    function AddHead(n: ListName, t: Tid): (s: State)
    {
      this.(lists := lists[n := [t] + List(n)], place := place[t := On(n)])
    }

    /** Send an unidle interrupt if processor d is idle and is not the sender. */
    function Unidle(c: nat, d: nat): (s: State)
      requires d < |cpus|
    {
      if cpus[d].idle && d != c then this.(unidle := unidle + {d}) else this
    }
  }

  // ---- Steps ----

  datatype Action =
    | Level(spl: int)                     // splhigh, spl0, splx
    | Interrupt(ipi: bool)                // an interrupt arrives, an unidle interrupt if ipi
    | ReturnFromInterrupt
    | Acquire(l: LockName)
    | Release(l: LockName)
    | WakeOne(w: nat)
    | WakeAll(w: nat)
    | Fork(t: Tid, d: nat)                // the new thread's processor is where its parent once was
    | Count(d: nat)
    | TakeVictims | TakeOne | TakeDone
    | SendTo(d: nat) | GiveOne | GiveDone
    | ReturnLeftovers
    | Switch(goal: Goal)                  // yield, sleep, exit
    | Step                                // whatever comes next in the code

  /** When an action can happen: where control is, and what the code asks of its callers. */
  ghost predicate Enabled(s: State, c: nat, a: Action)
  {
    s.Shape() && c < |s.cpus| &&
    var t := s.Thr(c);
    var p := s.cpus[c];
    var working := t.at.Work? && t.phase.Go?;
    match a
    case Level(spl) => working && (spl == 1 || (spl == 0 && t.frame.NoInterrupt?))
    case Interrupt(ipi) =>
      && (ipi ==> c in s.unidle) && t.phase.Go?
      && (t.at.Idling? || (t.at.Work? && p.irqOn))
    case ReturnFromInterrupt => working && !t.frame.NoInterrupt? && p.spinlocks == 0
    case Acquire(l) => working && !l.QueueLock? && s.LockOf(l).holder != By(c)
    case Release(l) => working && s.LockOf(l).holder == By(c)
    case WakeOne(w) => working && s.LockOf(ChannelLock(w)).holder == By(c)
    case WakeAll(w) => working && s.LockOf(ChannelLock(w)).holder == By(c)
    case Fork(u, d) => working && u !in s.threads && d < |s.cpus|
    case Count(d) => working && !t.frame.NoInterrupt? && d < |s.cpus|
    case TakeVictims => working && !t.frame.NoInterrupt?
    case TakeOne => t.phase.Go? && t.at.Taking? && s.List(RunQueue(c)) != []
    case TakeDone => t.phase.Go? && t.at.Taking?
    case SendTo(d) => t.phase.Go? && t.at.Sending? && d < |s.cpus| && d != c
    case GiveOne => t.phase.Go? && t.at.Giving? && t.at.d < |s.cpus| && s.List(Hand(c)) != []
    case GiveDone => t.phase.Go? && t.at.Giving?
    case ReturnLeftovers => t.phase.Go? && t.at.Sending?
    case Switch(goal) =>
      && working
      && (match goal
          case ToReady => p.spinlocks == 0
          case ToSleep(w) => t.frame.NoInterrupt? && s.LockOf(ChannelLock(w)).holder == By(c) && p.spinlocks == 1
          case ToZombie => t.frame.NoInterrupt? && p.spinlocks == 0)
    case Step =>
      match t.phase
      case Spinning(l) => !s.LockOf(l).word
      case Won(l) => true
      case Dropping(l) => true
      case Go =>
        && !t.at.Work? && !t.at.Taking? && !t.at.Sending? && !t.at.Giving? && !t.at.Idling?
        && (t.at.Placing? ==> t.at.d < |s.cpus| && s.List(Hand(c)) != [])
  }

  /** The running thread goes on a list of its own accord. */
  function Joins(s: State, c: nat, n: ListName, st: ThreadState, at: Point): (s': State)
    requires s.Shape() && c < |s.cpus|
  {
    s.Local(c, s.Thr(c).(state := st, at := at), s.cpus[c]).AddTail(n, s.Cur(c))
  }

  /** Processor c picks the head of its run queue. */
  function Picked(s: State, c: nat): (s': State)
    requires s.Shape() && c < |s.cpus| && s.List(RunQueue(c)) != [] && s.Thr(c).at.Pick?
  {
    s.RemHead(RunQueue(c)).Goto(c, Resumed(s.Thr(c).at.saved))
    .(cpus := s.cpus[c := s.cpus[c].(cur := s.List(RunQueue(c))[0], idle := false)])
  }

  /**
   thread_create and the rest of thread_fork up to make_runnable.  The count is
   one for the new thread's level and one for the run-queue lock it will release.
   */
  function Forked(s: State, c: nat, u: Tid, d: nat): (s': State)
    requires s.Shape() && c < |s.cpus| && u !in s.threads
  {
    s.(threads := s.threads[u := Thread(d, Ready, 1, 2, NoInterrupt, Resumed(0), Go)])
    .AddTail(Hand(c), u).Goto(c, Waking)
  }

  /** exorcise takes a zombie off its list and destroys it. */
  function Destroyed(s: State, c: nat): (s': State)
    requires s.Shape() && s.List(Zombies(c)) != []
  {
    s.RemHead(Zombies(c)).Forget(s.List(Zombies(c))[0])
  }

  function Do(s: State, c: nat, a: Action): (s': State)
    requires Enabled(s, c, a)
  {
    var t := s.Thr(c);
    match a
    case Level(spl) => s.SetSpl(c, spl, Work)
    case Interrupt(ipi) =>
      var s1 := if ipi then s.(unidle := s.unidle - {c}) else s;
      if t.at.Idling? then s1.Local(c, t.(frame := FromIdle(t.at.saved), at := Work), s.cpus[c])
      else s1.Local(c, t.(frame := FromWork, curspl := 1, ipl := t.ipl + 1), s.cpus[c].(irqOn := false))
    case ReturnFromInterrupt =>
      if t.frame.FromIdle? then
        s.Local(c, t.(frame := NoInterrupt), s.cpus[c]).BeginAcquire(c, QueueLock(c), Pick(t.frame.saved))
      else
        s.Local(c, t.(frame := NoInterrupt, curspl := 0, ipl := t.ipl - 1), s.cpus[c].(irqOn := true))
    case Acquire(l) => s.BeginAcquire(c, l, Work)
    case Release(l) => s.BeginRelease(c, l, Work)
    case WakeOne(w) =>
      if s.List(Waiters(w)) == [] then s
      else s.RemHead(Waiters(w)).AddTail(Hand(c), s.List(Waiters(w))[0]).Goto(c, Waking)
    case WakeAll(w) => s.Goto(c, Collecting(w))
    case Fork(u, d) => Forked(s, c, u, d)
    case Count(d) => s.BeginAcquire(c, QueueLock(d), Peek(d))
    case TakeVictims => s.BeginAcquire(c, QueueLock(c), Taking)
    case TakeOne =>
      var q := s.List(RunQueue(c));
      s.RemTail(RunQueue(c)).AddHead(Hand(c), q[|q| - 1])
    case TakeDone => s.BeginRelease(c, QueueLock(c), Sending)
    case SendTo(d) => s.BeginAcquire(c, QueueLock(d), Giving(d))
    case GiveOne =>
      var u := s.List(Hand(c))[0];
      if u == s.Cur(c) then s.RemHead(Hand(c)).AddTail(Hand(c), u)
      else s.RemHead(Hand(c)).SetThread(u, s.threads[u].(cpu := t.at.d)).AddTail(RunQueue(t.at.d), u).Unidle(c, t.at.d)
    case GiveDone => s.BeginRelease(c, QueueLock(t.at.d), Sending)
    case ReturnLeftovers =>
      if s.List(Hand(c)) == [] then s.Goto(c, Work) else s.BeginAcquire(c, QueueLock(c), Returning)
    case Switch(goal) =>
      if s.cpus[c].idle then s.SetSpl(c, 1, Work).SetSpl(c, t.curspl, Work)
      else s.SetSpl(c, 1, Work).BeginAcquire(c, QueueLock(c), Enqueue(goal, t.curspl))
    case Step =>
      match t.phase
      case Spinning(l) =>
        s.(locks := s.locks[l := s.LockOf(l).(word := true)]).Local(c, t.(phase := Won(l)), s.cpus[c])
      case Won(l) =>
        s.(locks := s.locks[l := s.LockOf(l).(holder := By(c))]).Local(c, t.(phase := Go), s.cpus[c])
      case Dropping(l) =>
        var (t', p) := Lower(t.(phase := Go), s.cpus[c]);
        s.(locks := s.locks[l := s.LockOf(l).(word := false)]).Local(c, t', p)
      case Go => Advance(s, c)
  }

  /** The next step at a point where the code has no choice. */
  function Advance(s: State, c: nat): (s': State)
    requires Enabled(s, c, Step) && s.Thr(c).phase.Go?
  {
    var t := s.Thr(c);
    var hand := s.List(Hand(c));
    match t.at
    case Collecting(w) =>
      if s.List(Waiters(w)) == [] then s.Goto(c, Waking)
      else s.RemHead(Waiters(w)).AddTail(Hand(c), s.List(Waiters(w))[0])
    case Waking =>
      if hand == [] then s.Goto(c, Work)
      else s.BeginAcquire(c, QueueLock(s.threads[hand[0]].cpu), Placing(s.threads[hand[0]].cpu))
    case Placing(d) =>
      s.RemHead(Hand(c)).SetThread(hand[0], s.threads[hand[0]].(state := Ready))
      .AddTail(RunQueue(d), hand[0]).Unidle(c, d).Goto(c, Placed(d))
    case Placed(d) => s.BeginRelease(c, QueueLock(d), Waking)
    case Peek(d) => s.BeginRelease(c, QueueLock(d), Work)
    case Returning =>
      if hand == [] then s.BeginRelease(c, QueueLock(c), Work)
      else s.RemHead(Hand(c)).AddTail(RunQueue(c), hand[0])
    case Enqueue(goal, saved) =>
      if goal.ToReady? && s.List(RunQueue(c)) == [] then s.BeginRelease(c, QueueLock(c), Restoring(saved))
      else (match goal
            case ToReady => Joins(s, c, RunQueue(t.cpu), Ready, StoreState(goal, saved))
            case ToSleep(w) => Joins(s, c, Waiters(w), t.state, Unguard(w, saved))
            case ToZombie => Joins(s, c, Zombies(c), t.state, StoreState(goal, saved)))
    case Unguard(w, saved) => s.BeginRelease(c, ChannelLock(w), StoreState(ToSleep(w), saved))
    case StoreState(goal, saved) =>
      s.Local(c, t.(state := (match goal case ToReady => Ready case ToSleep(w) => Sleep case ToZombie => Zombie),
                    at := Pick(saved)), s.cpus[c].(idle := true))
    case Pick(saved) =>
      if s.List(RunQueue(c)) == [] then s.BeginRelease(c, QueueLock(c), Idling(saved))
      else Picked(s, c)
    case Resumed(saved) =>
      s.Local(c, t.(state := Run), s.cpus[c]).BeginRelease(c, QueueLock(c), Exorcising(saved))
    case Exorcising(saved) =>
      if s.List(Zombies(c)) == [] then s.SetSpl(c, saved, Work) else Destroyed(s, c)
    case Restoring(saved) => s.SetSpl(c, saved, Work)
  }

  // ---- The invariant ----

  predicate Migrating(at: Point) { at.Taking? || at.Sending? || at.Giving? || at.Returning? }

  predicate IdleAt(t: Thread) { t.frame.FromIdle? || t.at.Pick? || t.at.Idling? }

  predicate SavedOk(saved: int, frame: Frame)
  {
    0 <= saved <= 1 && !frame.FromIdle? && (frame.FromWork? ==> saved == 1)
  }

  /** The interrupt level at each point, and what the level saved in thread_switch can be. */
  predicate LevelOk(t: Thread)
  {
    && 0 <= t.curspl <= 1
    && (!t.frame.NoInterrupt? ==> t.curspl == 1)
    && (t.frame.FromIdle? ==> 0 <= t.frame.saved <= 1)
    && match t.at
       case Enqueue(goal, saved) =>
         t.curspl == 1 && SavedOk(saved, t.frame) && (!goal.ToReady? ==> t.frame.NoInterrupt?)
       case Unguard(w, saved) => t.curspl == 1 && SavedOk(saved, t.frame) && t.frame.NoInterrupt?
       case StoreState(goal, saved) =>
         t.curspl == 1 && SavedOk(saved, t.frame) && (!goal.ToReady? ==> t.frame.NoInterrupt?)
       case Pick(saved) => t.curspl == 1 && SavedOk(saved, t.frame)
       case Idling(saved) => t.curspl == 1 && SavedOk(saved, t.frame) && t.frame.NoInterrupt?
       case Resumed(saved) => t.curspl == 1 && SavedOk(saved, t.frame)
       case Exorcising(saved) => t.curspl == 1 && SavedOk(saved, t.frame)
       case Restoring(saved) => t.curspl == 1 && SavedOk(saved, t.frame)
       case _ => Migrating(t.at) || t.at.Peek? ==> !t.frame.NoInterrupt?
  }

  ghost predicate NoQueueLock(h: set<LockName>) { forall l :: l in h ==> !l.QueueLock? }

  /** Which locks processor c holds at each point. */
  ghost predicate HeldAt(at: Point, c: nat, h: set<LockName>)
  {
    match at
    case Work => NoQueueLock(h)
    case Collecting(w) => NoQueueLock(h) && ChannelLock(w) in h
    case Waking => NoQueueLock(h)
    case Placing(d) => QueueLock(d) in h && NoQueueLock(h - {QueueLock(d)})
    case Placed(d) => QueueLock(d) in h && NoQueueLock(h - {QueueLock(d)})
    case Peek(d) => QueueLock(d) in h && NoQueueLock(h - {QueueLock(d)})
    case Taking => QueueLock(c) in h && NoQueueLock(h - {QueueLock(c)})
    case Sending => NoQueueLock(h)
    case Giving(d) => QueueLock(d) in h && NoQueueLock(h - {QueueLock(d)})
    case Returning => QueueLock(c) in h && NoQueueLock(h - {QueueLock(c)})
    case Enqueue(goal, saved) => h == (if goal.ToSleep? then {QueueLock(c), ChannelLock(goal.w)} else {QueueLock(c)})
    case Unguard(w, saved) => h == {QueueLock(c), ChannelLock(w)}
    case StoreState(goal, saved) => h == {QueueLock(c)}
    case Pick(saved) => h == {QueueLock(c)}
    case Idling(saved) => h == {}
    case Resumed(saved) => h == {QueueLock(c)}
    case Exorcising(saved) => h == {}
    case Restoring(saved) => h == {}
  }

  ghost predicate HeldOk(t: Thread, c: nat, h: set<LockName>)
  {
    if t.phase.Spinning? || t.phase.Won? then t.phase.l !in h && !Storing(t) && HeldAt(t.at, c, h + {t.phase.l})
    else HeldAt(t.at, c, h)
  }

  /** Where the thread a processor is running can be: on no list, unless it is on its way out. */
  predicate PlaceAt(t: Thread, p: Place)
  {
    if t.frame.FromIdle? then p.On?
    else match t.at
      case Unguard(w, saved) => p == On(Waiters(w)) || (p.On? && p.list.Hand?)
      case StoreState(goal, saved) =>
        (match goal
         case ToReady => p == On(RunQueue(t.cpu))
         case ToSleep(w) => p == On(Waiters(w)) || (p.On? && p.list.Hand?)
         case ToZombie => p == On(Zombies(t.cpu)))
      case Pick(saved) => p.On? && (t.frame.FromWork? ==> p == On(RunQueue(t.cpu)))
      case Idling(saved) => p.On?
      case _ => p == Nowhere
  }

  /** What processor c, running t and holding h, knows of itself. */
  ghost predicate View(c: nat, p: Cpu, t: Thread, h: set<LockName>, pl: Place)
  {
    && t.cpu == c
    && t.ipl == t.curspl + p.spinlocks + (if t.phase.Dropping? then 1 else 0)
    && p.spinlocks == |h| + (if t.phase.Spinning? || t.phase.Won? then 1 else 0)
    && (p.irqOn <==> t.ipl == 0)
    && (p.idle <==> IdleAt(t))
    && LevelOk(t) && HeldOk(t, c, h) && PlaceAt(t, pl)
  }

  /** What the private list holds at each point. */
  ghost predicate HandOk(threads: map<Tid, Thread>, hand: seq<Tid>, at: Point, c: nat)
  {
    && (forall i :: 0 <= i < |hand| ==> hand[i] in threads)
    && match at
       case Collecting(w) => true
       case Waking => true
       case Placing(d) => hand != [] && threads[hand[0]].cpu == d
       case Placed(d) => true
       case _ => if Migrating(at) then
                   forall i :: 0 <= i < |hand| ==> threads[hand[i]].cpu == c && threads[hand[i]].state == Ready
                 else hand == []
  }

  /** An idle processor with work waiting has an interrupt coming. */
  ghost predicate CpuOk(s: State, c: nat)
    requires s.Shape() && c < |s.cpus|
  {
    && View(c, s.cpus[c], s.Thr(c), s.HeldBy(c), s.place[s.Cur(c)])
    && HandOk(s.threads, s.List(Hand(c)), s.Thr(c).at, c)
    && (s.Thr(c).at.Idling? && s.List(RunQueue(c)) != [] ==> c in s.unidle)
  }

  /** A thread that is switched out, or new. */
  predicate Parked(t: Thread, p: Place)
  {
    && t.curspl == 1 && t.ipl == 2 && t.at.Resumed? && t.phase.Go? && SavedOk(t.at.saved, t.frame) && p.On?
  }

  predicate Storing(t: Thread) { t.at.StoreState? || t.at.Unguard? }

  /** What a thread's place says about its processor and state. */
  predicate PlaceOk(t: Thread, p: Place)
  {
    match p
    case Nowhere => t.state.Run? || t.state.Ready?
    case On(RunQueue(d)) => t.cpu == d && t.state.Ready?
    case On(Zombies(d)) => t.cpu == d && (t.state.Zombie? || Storing(t))
    case On(Waiters(w)) => t.state.Sleep? || Storing(t)
    case On(Hand(d)) => true
  }

  ghost predicate ThreadOk(s: State, u: Tid)
    requires s.Shape() && u in s.threads
  {
    var t := s.threads[u];
    && t.cpu < |s.cpus|
    && (s.Cur(t.cpu) == u || Parked(t, s.place[u]))
    && PlaceOk(t, s.place[u])
  }

  predicate Flying(f: Phase) { f.Won? || f.Dropping? }

  /** From a successful test-and-set to the store that clears the word, a lock belongs to one processor. */
  predicate Inside(s: State, c: nat, l: LockName)
    requires c < |s.cpus| && s.cpus[c].cur in s.threads
  {
    s.LockOf(l).holder == By(c) || (Flying(s.Thr(c).phase) && s.Thr(c).phase.l == l)
  }

  /** A lock in flight is set and has no holder, and is in flight on one processor only. */
  ghost predicate FlightOk(s: State, c: nat)
    requires s.Shape() && c < |s.cpus|
  {
    var f := s.Thr(c).phase;
    f.Won? || f.Dropping? ==>
      && s.LockOf(f.l) == Spinlock(true, NoCpu)
      && (forall d :: 0 <= d < |s.cpus| && d != c && (s.Thr(d).phase.Won? || s.Thr(d).phase.Dropping?)
                      ==> s.Thr(d).phase.l != f.l)
  }

  ghost predicate LocksOk(s: State)
    requires s.Shape()
  {
    && (forall c :: 0 <= c < |s.cpus| ==> FlightOk(s, c))
    && (forall l :: l in s.locks && s.locks[l].holder.By? ==> s.locks[l].word && s.locks[l].holder.c < |s.cpus|)
    && (forall l :: s.LockOf(l).word ==> exists d :: 0 <= d < |s.cpus| && Inside(s, d, l))
  }

  /** q lists the threads whose place is n, each once. */
  ghost predicate Lists(q: seq<Tid>, place: map<Tid, Place>, n: ListName)
  {
    && (forall i, j :: 0 <= i < j < |q| ==> q[i] != q[j])
    && (forall t :: t in q <==> t in place && place[t] == On(n))
  }

  ghost predicate ListsOk(s: State) { forall n :: Lists(s.List(n), s.place, n) }

  ghost predicate Inv(s: State)
  {
    && s.Shape() && LocksOk(s) && ListsOk(s)
    && (forall c :: 0 <= c < |s.cpus| ==> CpuOk(s, c))
    && (forall u :: u in s.threads ==> ThreadOk(s, u))
  }

  // ---- One processor's step leaves the others alone ----

  /** Processor c steps from s to s'; besides the thread it runs, only u moves or changes. */
  ghost predicate Frames(s: State, s': State, c: nat, u: Tid)
  {
    && s.Shape() && s'.Shape() && |s'.cpus| == |s.cpus| && c < |s.cpus|
    && (forall d :: 0 <= d < |s.cpus| && d != c ==> s'.cpus[d] == s.cpus[d])
    && s'.cpus[c].cur == s.cpus[c].cur
    && s'.threads.Keys == s.threads.Keys && u in s.threads
    && (forall x :: x in s.threads && x != u && x != s.Cur(c) ==> s'.threads[x] == s.threads[x])
    && (forall x :: x in s.threads && x != u ==> s'.place[x] == s.place[x])
    && (u != s.Cur(c) ==> s'.threads[u] == s.threads[u].(cpu := s'.threads[u].cpu, state := s'.threads[u].state))
    && (forall d :: 0 <= d < |s.cpus| && d != c ==> s'.List(Hand(d)) == s.List(Hand(d)))
  }

  ghost predicate SameLists(s: State, s': State) { s'.lists == s.lists && s'.place == s.place && s'.unidle == s.unidle }

  /** What others see of the thread that moves. */
  ghost predicate MoveOk(s: State, s': State, c: nat, u: Tid)
    requires Frames(s, s', c, u)
  {
    && (forall d :: 0 <= d < |s.cpus| && d != c ==> s.place[u] != On(Hand(d)))
    && (forall d :: 0 <= d < |s.cpus| && d != c && s.Cur(d) == u ==>
          s'.threads[u].cpu == d && PlaceAt(s'.threads[u], s'.place[u]))
    && (forall d :: 0 <= d < |s.cpus| && d != c && s'.Thr(d).at.Idling? && s'.List(RunQueue(d)) != []
                    ==> d in s'.unidle)
  }

  lemma ViewKeeps(c: nat, p: Cpu, t: Thread, t': Thread, h: set<LockName>, pl: Place, pl': Place)
    requires View(c, p, t, h, pl) && t' == t.(state := t'.state) && PlaceAt(t', pl')
    ensures View(c, p, t', h, pl')
  {}

  lemma HandKeeps(threads: map<Tid, Thread>, threads': map<Tid, Thread>, hand: seq<Tid>, at: Point, c: nat)
    requires HandOk(threads, hand, at, c) && threads'.Keys == threads.Keys
    requires forall i :: 0 <= i < |hand| ==> hand[i] in threads && threads'[hand[i]].cpu == threads[hand[i]].cpu
    requires Migrating(at) ==>
      forall i :: 0 <= i < |hand| ==> hand[i] in threads && threads'[hand[i]].state == threads[hand[i]].state
    ensures HandOk(threads', hand, at, c)
  {}

  lemma OneStack(s: State, c: nat, d: nat)
    requires Inv(s) && c < |s.cpus| && d < |s.cpus| && c != d
    ensures s.Cur(c) != s.Cur(d) && s.Thr(c).cpu == c && s.Thr(d).cpu == d
  {
    hide HandOk, ListsOk, LocksOk;
    assert CpuOk(s, c) && CpuOk(s, d);
  }

  lemma InHand(s: State, c: nat, i: nat)
    requires Inv(s) && i < |s.List(Hand(c))|
    ensures s.List(Hand(c))[i] in s.threads && s.place[s.List(Hand(c))[i]] == On(Hand(c))
  {}

  lemma MigrantsHome(s: State, c: nat, i: nat)
    requires Inv(s) && c < |s.cpus| && i < |s.List(Hand(c))| && Migrating(s.Thr(c).at)
    ensures s.List(Hand(c))[i] in s.threads && s.threads[s.List(Hand(c))[i]].cpu == c
  {
    hide View, ThreadOk, LocksOk, ListsOk;
    assert CpuOk(s, c);
  }

  lemma OthersKeep(s: State, s': State, c: nat, u: Tid, d: nat)
    requires Inv(s) && Frames(s, s', c, u) && d < |s.cpus| && d != c
    requires s'.HeldBy(d) == s.HeldBy(d) && s'.Thr(c).cpu == c
    requires (SameLists(s, s') && u == s.Cur(c)) || MoveOk(s, s', c, u)
    ensures CpuOk(s', d)
  {
    assert CpuOk(s, d);
    OneStack(s, c, d);
    var hand := s.List(Hand(d));
    forall i | 0 <= i < |hand|
      ensures hand[i] in s.threads && s'.threads[hand[i]].cpu == s.threads[hand[i]].cpu
      ensures Migrating(s.Thr(d).at) ==> s'.threads[hand[i]].state == s.threads[hand[i]].state
    {
      InHand(s, d, i);
      if Migrating(s.Thr(d).at) { MigrantsHome(s, d, i); }
    }
    hide View, HandOk, LocksOk, ListsOk, ThreadOk, PlaceAt;
    HandKeeps(s.threads, s'.threads, hand, s.Thr(d).at, d);
    ViewKeeps(d, s.cpus[d], s.Thr(d), s'.Thr(d), s.HeldBy(d), s.place[s.Cur(d)], s'.place[s.Cur(d)]);
  }

  lemma ThreadsKeep(s: State, s': State, c: nat, u: Tid, x: Tid)
    requires Inv(s) && Frames(s, s', c, u) && x in s.threads && x != u && x != s.Cur(c)
    ensures ThreadOk(s', x)
  {}

  /** What is left to show of a step of processor c: c itself, the locks, the lists, and u. */
  lemma StepKeeps(s: State, s': State, c: nat, u: Tid)
    requires Inv(s) && Frames(s, s', c, u) && s'.Thr(c).cpu == c
    requires forall d :: 0 <= d < |s.cpus| && d != c ==> s'.HeldBy(d) == s.HeldBy(d)
    requires (SameLists(s, s') && u == s.Cur(c)) || MoveOk(s, s', c, u)
    requires CpuOk(s', c) && LocksOk(s') && ListsOk(s')
    requires ThreadOk(s', u) && ThreadOk(s', s.Cur(c))
    ensures Inv(s')
  {
    forall d | 0 <= d < |s.cpus| ensures CpuOk(s', d) {
      if d != c { OthersKeep(s, s', c, u, d); }
    }
    forall x | x in s'.threads ensures ThreadOk(s', x) {
      if x != u && x != s.Cur(c) { ThreadsKeep(s, s', c, u, x); }
    }
    hide CpuOk, ThreadOk, LocksOk, ListsOk, MoveOk;
  }

  // ---- Locks ----

  /** The locks are untouched and c is not between a lock's word and its holder. */
  lemma LocksSame(s: State, s': State, c: nat)
    requires s.Shape() && s'.Shape() && LocksOk(s) && s'.locks == s.locks && |s'.cpus| == |s.cpus| && c < |s.cpus|
    requires forall d :: 0 <= d < |s.cpus| && d != c ==> s'.Thr(d).phase == s.Thr(d).phase
    requires s'.Thr(c).phase == s.Thr(c).phase || !(Flying(s.Thr(c).phase) || Flying(s'.Thr(c).phase))
    ensures LocksOk(s')
  {
    forall d | 0 <= d < |s.cpus| ensures FlightOk(s', d) {
      assert FlightOk(s, d);
    }
    forall l | s'.LockOf(l).word ensures exists d :: 0 <= d < |s.cpus| && Inside(s', d, l) {
      assert s'.LockOf(l) == s.LockOf(l);
      var d :| 0 <= d < |s.cpus| && Inside(s, d, l);
      assert d != c ==> s'.Thr(d).phase == s.Thr(d).phase;
      assert Inside(s', d, l);
    }
  }

  /** The four ways the code changes a lock: test-and-set, store the holder, clear the holder, clear the word. */
  ghost predicate LockStep(s: State, s': State, c: nat, l: LockName)
    requires s.Shape() && s'.Shape() && c < |s.cpus| && c < |s'.cpus|
  {
    var f, f' := s.Thr(c).phase, s'.Thr(c).phase;
    var k, k' := s.LockOf(l), s'.LockOf(l);
    || (!k.word && !Flying(f) && f' == Won(l) && k' == k.(word := true))
    || (f == Won(l) && f' == Go && k' == k.(holder := By(c)))
    || (k.holder == By(c) && !Flying(f) && f' == Dropping(l) && k' == k.(holder := NoCpu))
    || (f == Dropping(l) && f' == Go && k' == k.(word := false))
  }

  lemma LocksStep(s: State, s': State, c: nat, l: LockName)
    requires s.Shape() && s'.Shape() && LocksOk(s) && |s'.cpus| == |s.cpus| && c < |s.cpus|
    requires s'.locks == s.locks[l := s'.LockOf(l)] && LockStep(s, s', c, l)
    requires forall d :: 0 <= d < |s.cpus| && d != c ==> s'.Thr(d).phase == s.Thr(d).phase
    ensures LocksOk(s')
  {
    assert FlightOk(s, c);
    forall d | 0 <= d < |s.cpus| ensures FlightOk(s', d) {
      assert FlightOk(s, d);
      forall e | 0 <= e < |s.cpus| && e != d && Flying(s'.Thr(d).phase) && Flying(s'.Thr(e).phase)
        ensures s'.Thr(e).phase.l != s'.Thr(d).phase.l
      {
        assert FlightOk(s, e);
      }
    }
    forall m | s'.LockOf(m).word ensures exists d :: 0 <= d < |s.cpus| && Inside(s', d, m) {
      if m == l { assert Inside(s', c, l); }
      else {
        assert s'.LockOf(m) == s.LockOf(m);
        var d :| 0 <= d < |s.cpus| && Inside(s, d, m);
        assert Inside(s', d, m);
      }
    }
  }

  /** Who holds what after a step on lock l by processor c. */
  lemma HeldStep(s: State, s': State, c: nat, l: LockName, d: nat)
    requires s.Shape() && s'.Shape() && LocksOk(s) && |s'.cpus| == |s.cpus| && c < |s.cpus|
    requires s'.locks == s.locks[l := s'.LockOf(l)] && LockStep(s, s', c, l)
    ensures d != c ==> s'.HeldBy(d) == s.HeldBy(d)
    ensures s'.HeldBy(c) == (match s'.Thr(c).phase
                             case Dropping(_) => s.HeldBy(c) - {l}
                             case Go => if s.Thr(c).phase.Won? then s.HeldBy(c) + {l} else s.HeldBy(c)
                             case _ => s.HeldBy(c))
    ensures l in s.HeldBy(c) <==> s.LockOf(l).holder == By(c)
  {
    assert FlightOk(s, c);
  }

  // ---- Lists ----

  lemma Removed(q: seq<Tid>, place: map<Tid, Place>, n: ListName)
    requires Lists(q, place, n) && q != []
    ensures Lists(q[1..], place[q[0] := Nowhere], n)
    ensures Lists(q[..|q| - 1], place[q[|q| - 1] := Nowhere], n)
  {}

  lemma Added(q: seq<Tid>, place: map<Tid, Place>, n: ListName, t: Tid)
    requires Lists(q, place, n) && t in place && place[t] == Nowhere
    ensures Lists(q + [t], place[t := On(n)], n) && Lists([t] + q, place[t := On(n)], n)
  {}

  lemma Elsewhere(q: seq<Tid>, place: map<Tid, Place>, n: ListName, t: Tid, p: Place)
    requires Lists(q, place, n) && t in place && place[t] != On(n) && p != On(n)
    ensures Lists(q, place[t := p], n)
  {}

  lemma RemoveKeeps(s: State, n: ListName)
    requires s.Shape() && ListsOk(s) && s.List(n) != []
    ensures ListsOk(s.RemHead(n)) && s.RemHead(n).Shape()
    ensures ListsOk(s.RemTail(n)) && s.RemTail(n).Shape()
    ensures s.place[s.List(n)[0]] == On(n) && s.place[s.List(n)[|s.List(n)| - 1]] == On(n)
  {
    var q := s.List(n);
    var h, t := s.RemHead(n), s.RemTail(n);
    assert Lists(q, s.place, n) && q[0] in q && q[|q| - 1] in q;
    Removed(q, s.place, n);
    forall m ensures Lists(h.List(m), h.place, m) && Lists(t.List(m), t.place, m) {
      if m != n {
        assert Lists(s.List(m), s.place, m);
        Elsewhere(s.List(m), s.place, m, q[0], Nowhere);
        Elsewhere(s.List(m), s.place, m, q[|q| - 1], Nowhere);
      }
    }
  }

  lemma AddKeeps(s: State, n: ListName, t: Tid)
    requires s.Shape() && ListsOk(s) && t in s.threads && s.place[t] == Nowhere
    ensures ListsOk(s.AddTail(n, t)) && s.AddTail(n, t).Shape()
    ensures ListsOk(s.AddHead(n, t)) && s.AddHead(n, t).Shape()
  {
    var a, b := s.AddTail(n, t), s.AddHead(n, t);
    assert Lists(s.List(n), s.place, n);
    Added(s.List(n), s.place, n, t);
    forall m ensures Lists(a.List(m), a.place, m) && Lists(b.List(m), b.place, m) {
      if m != n {
        assert Lists(s.List(m), s.place, m);
        Elsewhere(s.List(m), s.place, m, t, On(n));
      }
    }
  }

  // ---- Steps that touch no list ----

  /** What a processor must know of itself when its thread's record becomes t and its own p. */
  ghost predicate SelfOk(s: State, c: nat, t: Thread, p: Cpu, h: set<LockName>)
    requires s.Shape() && c < |s.cpus|
  {
    && p.cur == s.Cur(c)
    && View(c, p, t, h, s.place[s.Cur(c)]) && PlaceOk(t, s.place[s.Cur(c)])
    && HandOk(s.threads[s.Cur(c) := t], s.List(Hand(c)), t.at, c)
    && (t.at.Idling? && s.List(RunQueue(c)) != [] ==> c in s.unidle)
  }

  lemma LocalFrames(s: State, c: nat, t: Thread, p: Cpu, locks: map<LockName, Spinlock>)
    requires Inv(s) && c < |s.cpus| && p.cur == s.Cur(c)
    ensures var s' := s.(locks := locks).Local(c, t, p);
            && Frames(s, s', c, s.Cur(c)) && SameLists(s, s') && ListsOk(s')
            && s'.Cur(c) == s.Cur(c) && s'.Thr(c) == t && s'.threads == s.threads[s.Cur(c) := t] && s'.cpus[c] == p
            && (forall d :: 0 <= d < |s.cpus| && d != c ==> s'.Thr(d).phase == s.Thr(d).phase)
  {
    var s' := s.(locks := locks).Local(c, t, p);
    forall d | 0 <= d < |s.cpus| && d != c ensures s'.Thr(d).phase == s.Thr(d).phase { OneStack(s, c, d); }
    hide CpuOk, ThreadOk, LocksOk;
    assert forall n :: s'.List(n) == s.List(n);
    forall n ensures Lists(s'.List(n), s'.place, n) { assert Lists(s.List(n), s.place, n); }
  }

  lemma SelfKeeps(s: State, s': State, c: nat, t: Thread, p: Cpu)
    requires Inv(s) && c < |s.cpus| && s'.Shape() && |s'.cpus| == |s.cpus|
    requires s'.cpus[c] == p && s'.threads == s.threads[s.Cur(c) := t] && SameLists(s, s')
    requires SelfOk(s, c, t, p, s'.HeldBy(c))
    ensures CpuOk(s', c) && ThreadOk(s', s.Cur(c)) && s'.Thr(c).cpu == c
  {}

  lemma LocalKeeps(s: State, c: nat, t: Thread, p: Cpu)
    requires Inv(s) && c < |s.cpus| && SelfOk(s, c, t, p, s.HeldBy(c))
    requires t.phase == s.Thr(c).phase || !(Flying(s.Thr(c).phase) || Flying(t.phase))
    ensures Inv(s.Local(c, t, p))
  {
    var s' := s.Local(c, t, p);
    assert s' == s.(locks := s.locks).Local(c, t, p);
    hide CpuOk, ThreadOk, LocksOk, ListsOk, View, HandOk, PlaceOk, Lists, Frames, SameLists;
    LocalFrames(s, c, t, p, s.locks);
    assert forall d :: s'.HeldBy(d) == s.HeldBy(d);
    LocksSame(s, s', c);
    SelfKeeps(s, s', c, t, p);
    StepKeeps(s, s', c, s.Cur(c));
  }

  lemma LockKeeps(s: State, c: nat, l: LockName, k: Spinlock, t: Thread, p: Cpu)
    requires Inv(s) && c < |s.cpus|
    requires var s' := s.(locks := s.locks[l := k]);
             SelfOk(s, c, t, p, s'.HeldBy(c)) && s'.Local(c, t, p).Shape() && LockStep(s, s'.Local(c, t, p), c, l)
    ensures Inv(s.(locks := s.locks[l := k]).Local(c, t, p))
  {
    var s' := s.(locks := s.locks[l := k]).Local(c, t, p);
    hide CpuOk, ThreadOk, LocksOk, ListsOk, View, HandOk, PlaceOk, Lists, Frames, SameLists, LockStep;
    LocalFrames(s, c, t, p, s.locks[l := k]);
    forall d | 0 <= d < |s.cpus| && d != c ensures s'.HeldBy(d) == s.HeldBy(d) { HeldStep(s, s', c, l, d); }
    assert s'.HeldBy(c) == s.(locks := s.locks[l := k]).HeldBy(c);
    LocksStep(s, s', c, l);
    SelfKeeps(s, s', c, t, p);
    StepKeeps(s, s', c, s.Cur(c));
  }

  /** The invariant as processor c sees it. */
  lemma Knows(s: State, c: nat)
    requires Inv(s) && c < |s.cpus|
    ensures s.Shape() && SelfOk(s, c, s.Thr(c), s.cpus[c], s.HeldBy(c))
    ensures HandOk(s.threads, s.List(Hand(c)), s.Thr(c).at, c)
    ensures forall l :: l in s.HeldBy(c) <==> s.LockOf(l).holder == By(c)
  {
    hide LocksOk, ListsOk, View, HandOk, PlaceOk;
    assert CpuOk(s, c) && ThreadOk(s, s.Cur(c));
    assert s.threads[s.Cur(c) := s.Thr(c)] == s.threads;
  }

  /** Control may move to `at` without a change of level, place or hand. */
  ghost predicate Goes(s: State, c: nat, at: Point, h: set<LockName>)
    requires s.Shape() && c < |s.cpus|
  {
    var t := s.Thr(c).(at := at);
    && LevelOk(t) && PlaceAt(t, s.place[s.Cur(c)]) && PlaceOk(t, s.place[s.Cur(c)])
    && IdleAt(t) == IdleAt(s.Thr(c))
    && HandOk(s.threads, s.List(Hand(c)), at, c) && HeldAt(at, c, h)
    && (at.Idling? ==> s.List(RunQueue(c)) == [])
  }

  /** The hand does not depend on where its owner's control is. */
  lemma HandAt(s: State, c: nat, t: Thread)
    requires s.Shape() && c < |s.cpus| && HandOk(s.threads, s.List(Hand(c)), t.at, c)
    requires t.cpu == s.Thr(c).cpu && t.state == s.Thr(c).state
    ensures HandOk(s.threads[s.Cur(c) := t], s.List(Hand(c)), t.at, c)
  {}

  /** Points at which the hand is empty. */
  predicate Plain(at: Point)
  {
    !Migrating(at) && !at.Collecting? && !at.Waking? && !at.Placing? && !at.Placed?
  }

  lemma NoHand(s: State, c: nat, t: Thread)
    requires s.Shape() && c < |s.cpus| && HandOk(s.threads, s.List(Hand(c)), s.Thr(c).at, c)
    requires Plain(s.Thr(c).at) && !t.at.Placing?
    ensures s.List(Hand(c)) == [] && HandOk(s.threads, [], t.at, c)
    ensures HandOk(s.threads[s.Cur(c) := t], s.List(Hand(c)), t.at, c)
  {}

  lemma GotoKeeps(s: State, c: nat, at: Point)
    requires Inv(s) && c < |s.cpus| && s.Thr(c).phase.Go? && Goes(s, c, at, s.HeldBy(c))
    ensures Inv(s.Goto(c, at))
  {
    hide HandOk, PlaceOk, LevelOk, PlaceAt, HeldAt, LocksOk, ListsOk, CpuOk, ThreadOk;
    Knows(s, c);
    HandAt(s, c, s.Thr(c).(at := at));
    LocalKeeps(s, c, s.Thr(c).(at := at), s.cpus[c]);
  }

  lemma AcquireKeeps(s: State, c: nat, l: LockName, at: Point)
    requires Inv(s) && c < |s.cpus| && s.Thr(c).phase.Go?
    requires l !in s.HeldBy(c) && Goes(s, c, at, s.HeldBy(c) + {l}) && !at.StoreState? && !at.Unguard?
    ensures Inv(s.BeginAcquire(c, l, at))
  {
    hide HandOk, PlaceOk, PlaceAt, HeldAt, LocksOk, ListsOk, CpuOk, ThreadOk;
    Knows(s, c);
    var t := s.Thr(c).(at := at, ipl := s.Thr(c).ipl + 1, phase := Spinning(l));
    assert PlaceOk(t, s.place[s.Cur(c)]) && PlaceAt(t, s.place[s.Cur(c)]) by {
      PlaceIgnores(s.Thr(c).(at := at), t, s.place[s.Cur(c)]);
    }
    HandAt(s, c, t);
    var (_, p) := Raise(s.Thr(c), s.cpus[c]);
    LocalKeeps(s, c, t, p.(spinlocks := p.spinlocks + 1));
  }

  lemma PlaceIgnores(t: Thread, t': Thread, pl: Place)
    requires t' == t.(ipl := t'.ipl, phase := t'.phase, curspl := t'.curspl)
    ensures PlaceAt(t', pl) == PlaceAt(t, pl) && PlaceOk(t', pl) == PlaceOk(t, pl)
  {}

  lemma ReleaseKeeps(s: State, c: nat, l: LockName, at: Point)
    requires Inv(s) && c < |s.cpus| && s.Thr(c).phase.Go?
    requires l in s.HeldBy(c) && Goes(s, c, at, s.HeldBy(c) - {l})
    ensures Inv(s.BeginRelease(c, l, at))
  {
    hide HandOk, PlaceOk, PlaceAt, HeldAt, LocksOk, ListsOk, CpuOk, ThreadOk;
    Knows(s, c);
    var t := s.Thr(c).(at := at, phase := Dropping(l));
    PlaceIgnores(s.Thr(c).(at := at), t, s.place[s.Cur(c)]);
    HandAt(s, c, t);
    var p := s.cpus[c].(spinlocks := s.cpus[c].spinlocks - 1);
    var s1 := s.(locks := s.locks[l := s.LockOf(l).(holder := NoCpu)]);
    assert s1.HeldBy(c) == s.HeldBy(c) - {l};
    assert s1.Local(c, t, p).Shape() by { LocalFrames(s, c, t, p, s1.locks); }
    LockKeeps(s, c, l, s.LockOf(l).(holder := NoCpu), t, p);
    assert s.BeginRelease(c, l, at) == s1.Local(c, t, p);
  }

  // ---- Steps that move a thread from list to list ----

  /** Locks and processor records are untouched; control goes to `at`, and u has a new place. */
  ghost predicate Moves(s: State, s': State, c: nat, u: Tid, at: Point)
  {
    && s.Shape() && s'.Shape() && c < |s.cpus| && u in s.threads
    && s'.cpus == s.cpus && s'.locks == s.locks && s'.threads.Keys == s.threads.Keys
    && s'.Thr(c) == s.Thr(c).(at := at, state := s'.Thr(c).state)
    && (u != s.Cur(c) ==> s'.threads[u] == s.threads[u].(cpu := s'.threads[u].cpu, state := s'.threads[u].state)
                          && s'.Thr(c).state == s.Thr(c).state)
    && (forall x :: x in s.threads && x != u && x != s.Cur(c) ==> s'.threads[x] == s.threads[x])
    && (forall x :: x in s.threads && x != u ==> s'.place[x] == s.place[x])
    && (forall d :: 0 <= d < |s.cpus| && d != c ==> s'.List(Hand(d)) == s.List(Hand(d)))
    && (forall d :: 0 <= d < |s.cpus| ==> s'.List(RunQueue(d)) == s.List(RunQueue(d))
                                          || (d == c && !at.Idling?)
                                          || (d != c && s.cpus[d].idle ==> d in s'.unidle))
    && s.unidle <= s'.unidle
  }

  /** What must be shown of a thread that moves: at its own processor, and wherever it is still current. */
  ghost predicate Fits(s: State, s': State, c: nat, u: Tid)
    requires s.Shape() && s'.Shape() && s'.cpus == s.cpus && c < |s.cpus| && u in s.threads && u in s'.threads
  {
    && ListsOk(s') && ThreadOk(s', u)
    && PlaceAt(s'.Thr(c), s'.place[s.Cur(c)]) && PlaceOk(s'.Thr(c), s'.place[s.Cur(c)])
    && (forall d :: 0 <= d < |s.cpus| && d != c ==> s.place[u] != On(Hand(d)))
    && (forall d :: 0 <= d < |s.cpus| && d != c && s.Cur(d) == u ==>
          s'.threads[u].cpu == d && PlaceAt(s'.threads[u], s'.place[u]))
    && HandOk(s'.threads, s'.List(Hand(c)), s'.Thr(c).at, c)
  }

  lemma IdleKnows(s: State, d: nat)
    requires Inv(s) && d < |s.cpus|
    ensures s.cpus[d].idle == IdleAt(s.Thr(d))
    ensures s.Thr(d).at.Idling? && s.List(RunQueue(d)) != [] ==> d in s.unidle
  {
    hide Inv, HandOk, PlaceOk, LevelOk, HeldOk, PlaceAt;
    Knows(s, d);
  }

  lemma MoveFrames(s: State, s': State, c: nat, u: Tid, at: Point)
    requires Inv(s) && Moves(s, s', c, u, at) && Fits(s, s', c, u)
    ensures Frames(s, s', c, u) && MoveOk(s, s', c, u)
    ensures forall d :: 0 <= d < |s.cpus| && d != c ==> s'.Thr(d).phase == s.Thr(d).phase
  {
    hide Inv, ThreadOk, ListsOk, HandOk, PlaceOk, PlaceAt;
    forall d | 0 <= d < |s.cpus| && d != c
      ensures s'.Thr(d).phase == s.Thr(d).phase && s'.Thr(d).at == s.Thr(d).at
      ensures s'.Thr(d).at.Idling? && s'.List(RunQueue(d)) != [] ==> d in s'.unidle
    {
      OneStack(s, c, d);
      IdleKnows(s, d);
    }
  }

  lemma MoveView(s: State, s': State, c: nat, u: Tid, at: Point)
    requires Inv(s) && Moves(s, s', c, u, at) && s.Thr(c).phase.Go?
    requires PlaceAt(s'.Thr(c), s'.place[s.Cur(c)])
    requires LevelOk(s.Thr(c).(at := at)) && HeldAt(at, c, s.HeldBy(c))
    requires IdleAt(s.Thr(c).(at := at)) == IdleAt(s.Thr(c))
    ensures View(c, s'.cpus[c], s'.Thr(c), s'.HeldBy(c), s'.place[s.Cur(c)])
  {
    Knows(s, c);
    hide CpuOk, ThreadOk, LocksOk, ListsOk, HandOk, PlaceOk, PlaceAt, LevelOk, HeldAt;
    assert s'.HeldBy(c) == s.HeldBy(c);
    LevelIgnores(s.Thr(c).(at := at), s'.Thr(c));
  }

  lemma MoveKeeps(s: State, s': State, c: nat, u: Tid, at: Point)
    requires Inv(s) && Moves(s, s', c, u, at) && s.Thr(c).phase.Go? && Fits(s, s', c, u)
    requires LevelOk(s.Thr(c).(at := at)) && HeldAt(at, c, s.HeldBy(c)) && !at.Idling?
    requires IdleAt(s.Thr(c).(at := at)) == IdleAt(s.Thr(c))
    ensures Inv(s')
  {
    hide CpuOk, ThreadOk, LocksOk, ListsOk, HandOk, PlaceOk, PlaceAt, LevelOk, HeldAt, View, MoveOk;
    MoveFrames(s, s', c, u, at);
    MoveView(s, s', c, u, at);
    hide Frames;
    assert forall d :: s'.HeldBy(d) == s.HeldBy(d);
    LocksSame(s, s', c);
    SelfMoved(s', c);
    StepKeeps(s, s', c, u);
  }

  lemma SelfMoved(s: State, c: nat)
    requires s.Shape() && c < |s.cpus|
    requires View(c, s.cpus[c], s.Thr(c), s.HeldBy(c), s.place[s.Cur(c)]) && PlaceOk(s.Thr(c), s.place[s.Cur(c)])
    requires HandOk(s.threads, s.List(Hand(c)), s.Thr(c).at, c) && !s.Thr(c).at.Idling?
    ensures CpuOk(s, c) && ThreadOk(s, s.Cur(c)) && s.Thr(c).cpu == c
  {}

  lemma LevelIgnores(t: Thread, t': Thread)
    requires t' == t.(state := t'.state)
    ensures LevelOk(t') == LevelOk(t)
  {}

  // ---- The steps, one by one ----

  lemma LevelKeeps(s: State, c: nat, spl: int)
    requires Inv(s) && c < |s.cpus| && s.Thr(c).phase.Go? && 0 <= spl <= 1
    requires s.Thr(c).at.Work? || s.Thr(c).at.Exorcising? || s.Thr(c).at.Restoring?
    requires spl == 1 || s.Thr(c).frame.NoInterrupt?
    ensures Inv(s.SetSpl(c, spl, Work))
  {
    hide Inv, HandOk;
    Knows(s, c);
    var (t, p) := Splx(s.Thr(c), s.cpus[c], spl);
    NoHand(s, c, t.(at := Work));
    LocalKeeps(s, c, t.(at := Work), p);
  }

  lemma InterruptKeeps(s: State, c: nat, ipi: bool)
    requires Inv(s) && Enabled(s, c, Interrupt(ipi))
    ensures Inv(Do(s, c, Interrupt(ipi)))
  {
    hide Inv, HandOk;
    Knows(s, c);
    var t := s.Thr(c);
    if t.at.Idling? {
      var t' := t.(frame := FromIdle(t.at.saved), at := Work);
      NoHand(s, c, t');
      LocalKeeps(s, c, t', s.cpus[c]);
      UnidleKeeps(s.Local(c, t', s.cpus[c]), c);
    } else {
      var t', p := t.(frame := FromWork, curspl := 1, ipl := t.ipl + 1), s.cpus[c].(irqOn := false);
      HandAt(s, c, t');
      LocalKeeps(s, c, t', p);
      UnidleKeeps(s.Local(c, t', p), c);
    }
  }

  lemma UnidleKeeps(s: State, c: nat)
    requires Inv(s) && c < |s.cpus| && !s.Thr(c).at.Idling?
    ensures Inv(s.(unidle := s.unidle - {c}))
  {
    var s' := s.(unidle := s.unidle - {c});
    assert forall d :: s'.HeldBy(d) == s.HeldBy(d);
    assert forall n :: s'.List(n) == s.List(n);
    assert s'.Shape();
    assert LocksOk(s') by { hide CpuOk, ThreadOk, ListsOk; LocksSame(s, s', c); }
    hide LocksOk, View, HandOk, PlaceOk, Parked, Lists;
    forall d | 0 <= d < |s.cpus| ensures CpuOk(s', d) { assert CpuOk(s, d); }
    forall u | u in s.threads ensures ThreadOk(s', u) { assert ThreadOk(s, u); }
    forall n ensures Lists(s'.List(n), s'.place, n) { assert Lists(s.List(n), s.place, n); }
  }

  lemma ReturnKeeps(s: State, c: nat)
    requires Inv(s) && Enabled(s, c, ReturnFromInterrupt)
    ensures Inv(Do(s, c, ReturnFromInterrupt))
  {
    hide Inv, HandOk;
    Knows(s, c);
    var t := s.Thr(c);
    if t.frame.FromIdle? {
      var t' := t.(frame := NoInterrupt, ipl := t.ipl + 1, phase := Spinning(QueueLock(c)), at := Pick(t.frame.saved));
      assert s.HeldBy(c) == {};
      assert {} + {QueueLock(c)} == {QueueLock(c)};
      NoHand(s, c, t');
      var p := s.cpus[c].(spinlocks := s.cpus[c].spinlocks + 1);
      LocalKeeps(s, c, t', p);
      assert Do(s, c, ReturnFromInterrupt) == s.Local(c, t', p);
    } else {
      var t' := t.(frame := NoInterrupt, curspl := 0, ipl := t.ipl - 1);
      HandAt(s, c, t');
      LocalKeeps(s, c, t', s.cpus[c].(irqOn := true));
    }
  }

  lemma PhaseKeeps(s: State, c: nat)
    requires Inv(s) && Enabled(s, c, Step) && !s.Thr(c).phase.Go?
    ensures Inv(Do(s, c, Step))
  {
    hide Inv, HandOk, HeldAt, LevelOk, PlaceAt, PlaceOk;
    Knows(s, c);
    var t := s.Thr(c);
    var l := t.phase.l;
    Flight(s, c, l);
    match t.phase
    case Spinning(_) => PhaseStep(s, c, t.(phase := Won(l)), s.cpus[c], s.LockOf(l).(word := true));
    case Won(_) => PhaseStep(s, c, t.(phase := Go), s.cpus[c], s.LockOf(l).(holder := By(c)));
    case Dropping(_) =>
      var (t', p) := Lower(t.(phase := Go), s.cpus[c]);
      PhaseStep(s, c, t', p, s.LockOf(l).(word := false));
  }

  /** A single instruction on lock l: test-and-set, store the holder, or clear the word and lower the level. */
  ghost predicate PhaseInstr(c: nat, t: Thread, t': Thread, p: Cpu, p': Cpu, k: Spinlock, k': Spinlock)
  {
    match t.phase
    case Spinning(l) => !k.word && k' == k.(word := true) && t' == t.(phase := Won(l)) && p' == p
    case Won(l) => k' == k.(holder := By(c)) && t' == t.(phase := Go) && p' == p
    case Dropping(l) => k' == k.(word := false) && (t', p') == Lower(t.(phase := Go), p)
    case Go => false
  }

  lemma PhaseView(c: nat, t: Thread, t': Thread, p: Cpu, p': Cpu, k: Spinlock, k': Spinlock, h: set<LockName>,
                  pl: Place)
    requires View(c, p, t, h, pl) && PhaseInstr(c, t, t', p, p', k, k')
    ensures View(c, p', t', if t.phase.Won? then h + {t.phase.l} else h, pl)
    ensures PlaceOk(t', pl) == PlaceOk(t, pl)
  {
    hide HeldAt;
  }

  lemma PhaseStep(s: State, c: nat, t: Thread, p: Cpu, k: Spinlock)
    requires Inv(s) && c < |s.cpus| && !s.Thr(c).phase.Go?
    requires PhaseInstr(c, s.Thr(c), t, s.cpus[c], p, s.LockOf(s.Thr(c).phase.l), k)
    ensures Inv(s.(locks := s.locks[s.Thr(c).phase.l := k]).Local(c, t, p))
  {
    hide Inv, HandOk, View, PlaceOk;
    Knows(s, c);
    var l := s.Thr(c).phase.l;
    Flight(s, c, l);
    var s1 := s.(locks := s.locks[l := k]);
    assert s1.HeldBy(c) == if s.Thr(c).phase.Won? then s.HeldBy(c) + {l} else s.HeldBy(c);
    PhaseView(c, s.Thr(c), t, s.cpus[c], p, s.LockOf(l), k, s.HeldBy(c), s.place[s.Cur(c)]);
    HandAt(s, c, t);
    assert s1.Local(c, t, p).Shape() by { LocalFrames(s, c, t, p, s1.locks); }
    LockKeeps(s, c, l, k, t, p);
  }

  lemma Flight(s: State, c: nat, l: LockName)
    requires Inv(s) && c < |s.cpus|
    ensures s.LockOf(l).holder.By? ==> s.LockOf(l).word
    ensures Flying(s.Thr(c).phase) && s.Thr(c).phase.l == l ==> s.LockOf(l) == Spinlock(true, NoCpu)
  {
    hide CpuOk, ThreadOk, ListsOk;
    assert FlightOk(s, c);
  }

  /** A hand is fit for a point it is carried to. */
  lemma Carried(s: State, c: nat, at: Point)
    requires s.Shape() && c < |s.cpus| && HandOk(s.threads, s.List(Hand(c)), s.Thr(c).at, c)
    ensures Plain(s.Thr(c).at) && !at.Placing? ==> HandOk(s.threads, s.List(Hand(c)), at, c)
    ensures s.List(Hand(c)) == [] && !at.Placing? ==> HandOk(s.threads, s.List(Hand(c)), at, c)
    ensures Migrating(s.Thr(c).at) && Migrating(at) ==> HandOk(s.threads, s.List(Hand(c)), at, c)
    ensures at.Waking? ==> HandOk(s.threads, s.List(Hand(c)), at, c)
  {}

  /** Busy code that holds no run-queue lock goes for one. */
  lemma QueueAcquireKeeps(s: State, c: nat, d: nat, at: Point)
    requires Inv(s) && c < |s.cpus| && s.Thr(c).phase.Go? && Busy(s.Thr(c).at) && Busy(at)
    requires NoQueueLock(s.HeldBy(c)) && HeldAt(at, c, s.HeldBy(c) + {QueueLock(d)})
    requires HandOk(s.threads, s.List(Hand(c)), at, c)
    requires Migrating(at) || at.Peek? ==> !s.Thr(c).frame.NoInterrupt?
    ensures Inv(s.BeginAcquire(c, QueueLock(d), at))
  {
    hide Inv, HandOk, HeldAt, LevelOk, PlaceAt, PlaceOk;
    Knows(s, c);
    LevelBusy(s.Thr(c), at);
    BusyPlace(s.Thr(c), s.Thr(c).(at := at), s.place[s.Cur(c)], Nowhere);
    BusyPlaceOk(s.Thr(c), at, s.place[s.Cur(c)]);
    AcquireKeeps(s, c, QueueLock(d), at);
  }

  lemma AcquiresKeep(s: State, c: nat, a: Action)
    requires Inv(s) && Enabled(s, c, a)
    requires a.Acquire? || a.Count? || a.TakeVictims?
    ensures Inv(Do(s, c, a))
  {
    hide Inv, HandOk, PlaceAt, PlaceOk, LevelOk;
    Knows(s, c);
    match a
    case Acquire(l) =>
      assert s.Thr(c).(at := Work) == s.Thr(c);
      Carried(s, c, Work); AcquireKeeps(s, c, l, Work);
    case Count(d) => Carried(s, c, Peek(d)); QueueAcquireKeeps(s, c, d, Peek(d));
    case TakeVictims => Carried(s, c, Taking); QueueAcquireKeeps(s, c, c, Taking);
  }

  lemma SendingKeeps(s: State, c: nat, a: Action)
    requires Inv(s) && Enabled(s, c, a) && (a.SendTo? || a.ReturnLeftovers?)
    ensures Inv(Do(s, c, a))
  {
    hide Inv, HandOk, PlaceAt, PlaceOk;
    Knows(s, c);
    match a
    case SendTo(d) => Carried(s, c, Giving(d)); QueueAcquireKeeps(s, c, d, Giving(d));
    case ReturnLeftovers =>
      if s.List(Hand(c)) == [] {
        BusyPlace(s.Thr(c), s.Thr(c).(at := Work), s.place[s.Cur(c)], Nowhere);
        BusyPlaceOk(s.Thr(c), Work, s.place[s.Cur(c)]);
        Carried(s, c, Work); GotoKeeps(s, c, Work);
      } else { Carried(s, c, Returning); QueueAcquireKeeps(s, c, c, Returning); }
  }

  lemma ReleasesKeep(s: State, c: nat, a: Action)
    requires Inv(s) && Enabled(s, c, a)
    requires a.Release? || a.TakeDone? || a.GiveDone?
    ensures Inv(Do(s, c, a))
  {
    hide Inv, HandOk;
    Knows(s, c);
    match a
    case Release(l) => Carried(s, c, Work); ReleaseKeeps(s, c, l, Work);
    case TakeDone => Carried(s, c, Sending); ReleaseKeeps(s, c, QueueLock(c), Sending);
    case GiveDone => Carried(s, c, Sending); ReleaseKeeps(s, c, QueueLock(s.Thr(c).at.d), Sending);
  }

  /** The points at which the next thing the code does is to unlock. */
  lemma UnlocksKeep(s: State, c: nat)
    requires Inv(s) && Enabled(s, c, Step) && s.Thr(c).phase.Go?
    requires var at := s.Thr(c).at;
             at.Placed? || at.Peek? || (at.Returning? && s.List(Hand(c)) == [])
    ensures Inv(Do(s, c, Step))
  {
    hide Inv, HandOk;
    Knows(s, c);
    match s.Thr(c).at
    case Placed(d) => Carried(s, c, Waking); ReleaseKeeps(s, c, QueueLock(d), Waking);
    case Peek(d) => Carried(s, c, Work); ReleaseKeeps(s, c, QueueLock(d), Work);
    case Returning => Carried(s, c, Work); ReleaseKeeps(s, c, QueueLock(c), Work);
  }

  lemma SwitchUnlocksKeep(s: State, c: nat)
    requires Inv(s) && Enabled(s, c, Step) && s.Thr(c).phase.Go?
    requires var at := s.Thr(c).at;
             || at.Unguard?
             || (at.Enqueue? && at.goal.ToReady? && s.List(RunQueue(c)) == [])
             || (at.Pick? && s.List(RunQueue(c)) == [])
    ensures Inv(Do(s, c, Step))
  {
    hide Inv, HandOk;
    Knows(s, c);
    match s.Thr(c).at
    case Unguard(w, saved) =>
      Carried(s, c, StoreState(ToSleep(w), saved));
      assert s.HeldBy(c) - {ChannelLock(w)} == {QueueLock(c)};
      ReleaseKeeps(s, c, ChannelLock(w), StoreState(ToSleep(w), saved));
    case Enqueue(goal, saved) =>
      Carried(s, c, Restoring(saved)); ReleaseKeeps(s, c, QueueLock(c), Restoring(saved));
    case Pick(saved) =>
      QueuedWork(s, c);
      Carried(s, c, Idling(saved)); ReleaseKeeps(s, c, QueueLock(c), Idling(saved));
  }

  /** A thread that yielded from an interrupt handler is on its run queue, so its processor does not idle. */
  lemma QueuedWork(s: State, c: nat)
    requires Inv(s) && c < |s.cpus| && s.Thr(c).at.Pick? && s.List(RunQueue(c)) == []
    ensures s.Thr(c).frame.NoInterrupt?
  {
    hide ThreadOk, LocksOk, HandOk, HeldOk;
    assert CpuOk(s, c);
    assert Lists(s.List(RunQueue(c)), s.place, RunQueue(c));
  }

  lemma WakingKeeps(s: State, c: nat)
    requires Inv(s) && Enabled(s, c, Step) && s.Thr(c).phase.Go? && s.Thr(c).at.Waking?
    ensures Inv(Do(s, c, Step))
  {
    hide Inv, HandOk;
    Knows(s, c);
    var hand := s.List(Hand(c));
    if hand == [] { Carried(s, c, Work); GotoKeeps(s, c, Work); }
    else {
      var d := s.threads[hand[0]].cpu;
      assert HandOk(s.threads, hand, Placing(d), c) by { Aimed(s, c); }
      QueueAcquireKeeps(s, c, d, Placing(d));
    }
  }

  lemma Aimed(s: State, c: nat)
    requires s.Shape() && c < |s.cpus| && s.List(Hand(c)) != []
    ensures HandOk(s.threads, s.List(Hand(c)), Placing(s.threads[s.List(Hand(c))[0]].cpu), c)
  {}

  lemma SwitchKeeps(s: State, c: nat, goal: Goal)
    requires Inv(s) && Enabled(s, c, Switch(goal))
    ensures Inv(Do(s, c, Switch(goal)))
  {
    hide Inv, HandOk, HeldOk, PlaceAt, PlaceOk;
    Knows(s, c);
    LevelKeeps(s, c, 1);
    var s1 := s.SetSpl(c, 1, Work);
    OnlyGuard(s, c, goal);
    assert s1.HeldBy(c) == s.HeldBy(c);
    if s.cpus[c].idle { LevelKeeps(s1, c, s.Thr(c).curspl); }
    else { EnterKeeps(s1, c, goal, s.Thr(c).curspl); }
  }

  /** thread_switch, with the level raised, goes for the run-queue lock. */
  lemma EnterKeeps(s: State, c: nat, goal: Goal, saved: int)
    requires Inv(s) && c < |s.cpus| && s.Thr(c).at.Work? && s.Thr(c).phase.Go? && s.Thr(c).curspl == 1
    requires SavedOk(saved, s.Thr(c).frame) && (goal.ToReady? || s.Thr(c).frame.NoInterrupt?)
    requires s.HeldBy(c) == if goal.ToSleep? then {ChannelLock(goal.w)} else {}
    ensures Inv(s.BeginAcquire(c, QueueLock(c), Enqueue(goal, saved)))
  {
    hide Inv, HandOk;
    Knows(s, c);
    Carried(s, c, Enqueue(goal, saved));
    AcquireKeeps(s, c, QueueLock(c), Enqueue(goal, saved));
  }

  /** A caller of thread_switch holds no spinlock but the one of the channel it sleeps on. */
  lemma OnlyGuard(s: State, c: nat, goal: Goal)
    requires Inv(s) && Enabled(s, c, Switch(goal))
    ensures s.HeldBy(c) == if goal.ToSleep? then {ChannelLock(goal.w)} else {}
  {
    hide Inv, HandOk;
    Knows(s, c);
    if goal.ToSleep? {
      var l, h := ChannelLock(goal.w), s.HeldBy(c);
      assert l in h && |h| == 1;
      assert |h - {l}| == 0;
    }
  }

  /** Taking a thread off the end of one list and putting it on the end of another. */
  lemma Relisted(s: State, n: ListName, m: ListName)
    requires s.Shape() && ListsOk(s) && s.List(n) != []
    ensures var q := s.List(n);
            && s.place[q[0]] == On(n) && s.place[q[|q| - 1]] == On(n)
            && ListsOk(s.RemHead(n).AddTail(m, q[0])) && s.RemHead(n).AddTail(m, q[0]).Shape()
            && ListsOk(s.RemTail(n).AddHead(m, q[|q| - 1])) && s.RemTail(n).AddHead(m, q[|q| - 1]).Shape()
  {
    hide ListsOk;
    var q := s.List(n);
    RemoveKeeps(s, n);
    AddKeeps(s.RemHead(n), m, q[0]);
    AddKeeps(s.RemTail(n), m, q[|q| - 1]);
  }

  lemma SameListsOk(s: State, s': State)
    requires ListsOk(s) && s'.lists == s.lists && s'.place == s.place
    ensures ListsOk(s')
  {
    forall n ensures Lists(s'.List(n), s'.place, n) { assert Lists(s.List(n), s.place, n); }
  }

  lemma InvParts(s: State)
    requires Inv(s)
    ensures s.Shape() && ListsOk(s) && LocksOk(s)
    ensures forall u :: u in s.threads ==> ThreadOk(s, u)
  {}

  function End(s: State, n: ListName, back: bool): (u: Tid)
    requires s.List(n) != []
  {
    if back then s.List(n)[|s.List(n)| - 1] else s.List(n)[0]
  }

  /** The head of list n goes to the tail of list m; or, backwards, the tail to the head. */
  function Relist(s: State, n: ListName, back: bool, m: ListName): (s': State)
    requires s.List(n) != []
  {
    var u := End(s, n, back);
    if back then s.RemTail(n).AddHead(m, u) else s.RemHead(n).AddTail(m, u)
  }

  lemma RelistFacts(s: State, n: ListName, back: bool, m: ListName)
    requires s.Shape() && ListsOk(s) && s.List(n) != []
    ensures var s', u := Relist(s, n, back, m), End(s, n, back);
            && s'.Shape() && ListsOk(s') && s.place[u] == On(n) && u in s.threads
            && s' == s.(lists := s'.lists, place := s.place[u := On(m)])
            && (forall k :: k != n && k != m ==> s'.List(k) == s.List(k))
  {
    hide ListsOk;
    Relisted(s, n, m);
  }

  /** Besides, the thread's record becomes x, interrupts are sent, and control goes to `at`. */
  function Transfer(s: State, c: nat, n: ListName, back: bool, m: ListName, x: Thread, wake: set<nat>, at: Point)
    : (s': State)
    requires s.Shape() && c < |s.cpus| && s.List(n) != []
  {
    var ts := s.threads[End(s, n, back) := x];
    Relist(s, n, back, m).(threads := ts[s.Cur(c) := ts[s.Cur(c)].(at := at)], unidle := s.unidle + wake)
  }

  /** Lists that a step of processor c may take from and add to. */
  predicate Reach(c: nat, n: ListName) { n.Hand? ==> n.c == c }

  lemma TransferShape(s: State, c: nat, n: ListName, back: bool, m: ListName, x: Thread, wake: set<nat>, at: Point)
    requires s.Shape() && ListsOk(s) && c < |s.cpus| && s.List(n) != []
    ensures var s', u := Transfer(s, c, n, back, m, x, wake, at), End(s, n, back);
            && s'.Shape() && ListsOk(s') && s.place[u] == On(n) && s'.place == s.place[u := On(m)]
            && s'.cpus == s.cpus && s'.locks == s.locks
            && (forall k :: k != n && k != m ==> s'.List(k) == s.List(k))
  {
    hide ListsOk, Relist;
    RelistFacts(s, n, back, m);
    var s1, s' := Relist(s, n, back, m), Transfer(s, c, n, back, m, x, wake, at);
    SameListsOk(s1, s');
    assert forall k :: s'.List(k) == s1.List(k);
  }

  lemma TransferMoves(s: State, c: nat, n: ListName, back: bool, m: ListName, x: Thread, wake: set<nat>, at: Point)
    requires s.Shape() && ListsOk(s) && c < |s.cpus| && s.List(n) != [] && Reach(c, n) && Reach(c, m)
    requires x == s.threads[End(s, n, back)].(cpu := x.cpu, state := x.state)
    requires End(s, n, back) == s.Cur(c) ==> x.cpu == s.Thr(c).cpu
    requires n.RunQueue? ==> n.c == c
    requires m.RunQueue? && m.c != c && m.c < |s.cpus| && s.cpus[m.c].idle ==> m.c in wake
    requires !at.Idling?
    ensures Moves(s, Transfer(s, c, n, back, m, x, wake, at), c, End(s, n, back), at)
  {
    TransferShape(s, c, n, back, m, x, wake, at);
    hide ListsOk, Relist, End;
  }

  /** The invariant as it concerns one thread. */
  lemma KnowsThread(s: State, u: Tid)
    requires Inv(s) && u in s.threads
    ensures s.Shape() && s.threads[u].cpu < |s.cpus| && PlaceOk(s.threads[u], s.place[u])
    ensures if s.Cur(s.threads[u].cpu) == u then PlaceAt(s.threads[u], s.place[u]) else Parked(s.threads[u], s.place[u])
    ensures forall d :: 0 <= d < |s.cpus| && s.Cur(d) == u ==> d == s.threads[u].cpu
  {
    InvParts(s);
    hide Inv, ListsOk, LocksOk, Parked, HandOk, PlaceOk;
    assert ThreadOk(s, u);
    forall d | 0 <= d < |s.cpus| && s.Cur(d) == u ensures d == s.threads[u].cpu && PlaceAt(s.threads[u], s.place[u]) {
      Knows(s, d);
    }
  }

  /** Code outside the switch, in its scheduler calls, does not care where its own thread is listed. */
  predicate Busy(at: Point)
  {
    at.Work? || at.Collecting? || at.Waking? || at.Placing? || at.Placed? || at.Peek? || Migrating(at)
  }

  lemma BusyPlace(t: Thread, t': Thread, p: Place, p': Place)
    requires Busy(t.at) && Busy(t'.at) && t' == t.(at := t'.at, state := t'.state) && PlaceAt(t, p)
    ensures PlaceAt(t', p)
    ensures p.On? && p'.On? ==> PlaceAt(t', p')
    ensures p == Nowhere && PlaceOk(t, p) && t'.state == t.state ==> PlaceOk(t', p)
  {}

  lemma BusyPlaceOk(t: Thread, at: Point, p: Place)
    requires Busy(t.at) && Busy(at)
    ensures PlaceOk(t, p) == PlaceOk(t.(at := at), p)
  {}

  lemma ParkedMoves(t: Thread, t': Thread, p: Place, p': Place)
    requires Parked(t, p) && t' == t.(cpu := t'.cpu, state := t'.state) && p'.On?
    ensures Parked(t', p')
  {}

  /** What TransferFits asks of the thread that moves. */
  ghost predicate Movable(s: State, c: nat, u: Tid, m: ListName, x: Thread)
    requires s.Shape() && c < |s.cpus| && u in s.threads
  {
    var t := s.threads[u];
    && x == t.(cpu := x.cpu, state := x.state) && x.cpu < |s.cpus| && t.cpu < |s.cpus|
    && (s.Cur(t.cpu) == u ==> x.cpu == t.cpu)
    && (s.Cur(t.cpu) == u && t.cpu != c ==> PlaceAt(x, On(m)))
    && PlaceOk(x, On(m))
  }

  lemma TransferThread(s: State, c: nat, n: ListName, back: bool, m: ListName, x: Thread, wake: set<nat>, at: Point)
    requires Inv(s) && c < |s.cpus| && s.List(n) != []
    requires Busy(s.Thr(c).at) && Busy(at) && Movable(s, c, End(s, n, back), m, x)
    ensures var s' := Transfer(s, c, n, back, m, x, wake, at);
            s'.Shape() && ThreadOk(s', End(s, n, back))
  {
    hide Inv, ListsOk, LocksOk, HandOk, View, PlaceAt, PlaceOk, Parked, Movable;
    InvParts(s);
    var u := End(s, n, back);
    var s' := Transfer(s, c, n, back, m, x, wake, at);
    TransferShape(s, c, n, back, m, x, wake, at);
    KnowsThread(s, u);
    Movables(s, c, u, m, x);
    if u == s.Cur(c) { BusyPlaceOk(x, at, On(m)); }
    assert s'.threads[u] == if u == s.Cur(c) then x.(at := at) else x;
    if s.Cur(s.threads[u].cpu) != u { ParkedMoves(s.threads[u], x, s.place[u], On(m)); }
  }

  lemma Movables(s: State, c: nat, u: Tid, m: ListName, x: Thread)
    requires s.Shape() && c < |s.cpus| && u in s.threads && Movable(s, c, u, m, x)
    ensures var t := s.threads[u];
      && x == t.(cpu := x.cpu, state := x.state) && x.cpu < |s.cpus| && t.cpu < |s.cpus|
      && (s.Cur(t.cpu) == u ==> x.cpu == t.cpu) && PlaceOk(x, On(m))
  {}

  /** A busy processor moves the head of a list it may reach. */
  lemma TransferFits(s: State, c: nat, n: ListName, back: bool, m: ListName, x: Thread, wake: set<nat>, at: Point)
    requires Inv(s) && c < |s.cpus| && s.List(n) != [] && Reach(c, n)
    requires Busy(s.Thr(c).at) && Busy(at) && Movable(s, c, End(s, n, back), m, x)
    requires var s' := Transfer(s, c, n, back, m, x, wake, at);
             HandOk(s'.threads, s'.List(Hand(c)), at, c)
    ensures var s', u := Transfer(s, c, n, back, m, x, wake, at), End(s, n, back);
            s'.Shape() && s'.cpus == s.cpus && u in s.threads && u in s'.threads && Fits(s, s', c, u)
  {
    hide Inv, ListsOk, LocksOk, HandOk, HeldOk, HeldAt, LevelOk, PlaceAt, PlaceOk, Parked, ThreadOk;
    InvParts(s);
    Knows(s, c);
    var u := End(s, n, back);
    var s' := Transfer(s, c, n, back, m, x, wake, at);
    TransferShape(s, c, n, back, m, x, wake, at);
    TransferThread(s, c, n, back, m, x, wake, at);
    KnowsThread(s, u);
    var t, t' := s.Thr(c), s'.Thr(c);
    BusyPlace(t, t', s.place[s.Cur(c)], On(m));
    if u == s.Cur(c) { BusyPlaceOk(x, at, On(m)); } else { BusyPlaceOk(t, at, s.place[s.Cur(c)]); }
  }

  lemma TransferKeeps(s: State, c: nat, n: ListName, back: bool, m: ListName, x: Thread, wake: set<nat>, at: Point)
    requires Inv(s) && c < |s.cpus| && s.List(n) != [] && Reach(c, n) && Reach(c, m) && s.Thr(c).phase.Go?
    requires Busy(s.Thr(c).at) && Busy(at) && Movable(s, c, End(s, n, back), m, x)
    requires n.RunQueue? ==> n.c == c
    requires m.RunQueue? && m.c != c && m.c < |s.cpus| && s.cpus[m.c].idle ==> m.c in wake
    requires LevelOk(s.Thr(c).(at := at)) && HeldAt(at, c, s.HeldBy(c))
    requires var s' := Transfer(s, c, n, back, m, x, wake, at);
             HandOk(s'.threads, s'.List(Hand(c)), at, c)
    ensures Inv(Transfer(s, c, n, back, m, x, wake, at))
  {
    hide Inv, ListsOk, LocksOk, HandOk, HeldOk, HeldAt, LevelOk, PlaceAt, PlaceOk, Parked, ThreadOk, Moves, Fits;
    InvParts(s);
    Knows(s, c);
    var u := End(s, n, back);
    KnowsThread(s, u);
    TransferMoves(s, c, n, back, m, x, wake, at);
    TransferFits(s, c, n, back, m, x, wake, at);
    MoveKeeps(s, Transfer(s, c, n, back, m, x, wake, at), c, u, at);
  }

  // The moves.

  lemma ToHand(t: Thread, w: nat, c: nat)
    requires PlaceAt(t, On(Waiters(w)))
    ensures PlaceAt(t, On(Hand(c)))
  {}

  /** A waiter is put in hand by the processor that holds its channel's lock. */
  lemma CollectKeeps(s: State, c: nat, w: nat, at: Point)
    requires Inv(s) && c < |s.cpus| && s.Thr(c).phase.Go? && s.List(Waiters(w)) != []
    requires (s.Thr(c).at.Work? && at == Waking) || (s.Thr(c).at == Collecting(w) == at)
    ensures Inv(Transfer(s, c, Waiters(w), false, Hand(c), s.threads[s.List(Waiters(w))[0]], {}, at))
  {
    hide Inv, LocksOk, ListsOk, HandOk, PlaceAt, Transfer;
    InvParts(s);
    Knows(s, c);
    var u := s.List(Waiters(w))[0];
    TransferShape(s, c, Waiters(w), false, Hand(c), s.threads[u], {}, at);
    var s' := Transfer(s, c, Waiters(w), false, Hand(c), s.threads[u], {}, at);
    KnowsThread(s, u);
    if s.Cur(s.threads[u].cpu) == u { ToHand(s.threads[u], w, c); }
    AnyHand(s', c, at);
    TransferKeeps(s, c, Waiters(w), false, Hand(c), s.threads[u], {}, at);
  }

  lemma AnyHand(s: State, c: nat, at: Point)
    requires s.Shape() && (at.Collecting? || at.Waking? || at.Placed?)
    ensures HandOk(s.threads, s.List(Hand(c)), at, c)
  {}

  /** A processor holds its run-queue lock from before its thread is listed until the thread's state is stored. */
  lemma StoringHolds(s: State, d: nat)
    requires Inv(s) && d < |s.cpus| && Storing(s.Thr(d))
    ensures s.LockOf(QueueLock(d)).holder == By(d)
  {
    hide Inv, HandOk, PlaceAt, PlaceOk, LevelOk;
    Knows(s, d);
    assert QueueLock(d) in s.HeldBy(d);
  }

  lemma ToQueue(t: Thread, c: nat, st: ThreadState)
    requires PlaceAt(t, On(Hand(c))) && !Storing(t)
    ensures PlaceAt(t.(state := st), On(RunQueue(t.cpu)))
  {}

  /** make_runnable: whoever holds the target's run-queue lock can be sure its last state is stored. */
  lemma PlacingKeeps(s: State, c: nat)
    requires Inv(s) && Enabled(s, c, Step) && s.Thr(c).phase.Go? && s.Thr(c).at.Placing?
    ensures Inv(Do(s, c, Step))
  {
    hide Inv, LocksOk, ListsOk, HandOk, PlaceAt, Transfer, LevelOk;
    InvParts(s);
    Knows(s, c);
    var d, hand := s.Thr(c).at.d, s.List(Hand(c));
    var u, x := hand[0], s.threads[hand[0]].(state := Ready);
    var wake := if s.cpus[d].idle && d != c then {d} else {};
    InHand(s, c, 0);
    assert x.cpu == d by { Aims(s, c); }
    KnowsThread(s, u);
    if s.Cur(d) == u && d != c {
      if Storing(s.threads[u]) { StoringHolds(s, d); }
      ToQueue(s.threads[u], c, Ready);
    }
    TransferShape(s, c, Hand(c), false, RunQueue(d), x, wake, Placed(d));
    AnyHand(Transfer(s, c, Hand(c), false, RunQueue(d), x, wake, Placed(d)), c, Placed(d));
    LevelBusy(s.Thr(c), Placed(d));
    TransferKeeps(s, c, Hand(c), false, RunQueue(d), x, wake, Placed(d));
    PlacingIs(s, c);
  }

  lemma PlacingIs(s: State, c: nat)
    requires Enabled(s, c, Step) && s.Thr(c).phase.Go? && s.Thr(c).at.Placing?
    ensures var d := s.Thr(c).at.d;
            Do(s, c, Step) == Transfer(s, c, Hand(c), false, RunQueue(d),
                                       s.threads[s.List(Hand(c))[0]].(state := Ready),
                                       if s.cpus[d].idle && d != c then {d} else {}, Placed(d))
  {
    assert s.unidle + {} == s.unidle;
  }

  lemma Aims(s: State, c: nat)
    requires s.Shape() && c < |s.cpus| && HandOk(s.threads, s.List(Hand(c)), s.Thr(c).at, c) && s.Thr(c).at.Placing?
    ensures s.List(Hand(c)) != [] && s.threads[s.List(Hand(c))[0]].cpu == s.Thr(c).at.d
  {}

  lemma LevelBusy(t: Thread, at: Point)
    requires LevelOk(t) && Busy(t.at) && Busy(at) && (Migrating(at) || at.Peek? ==> !t.frame.NoInterrupt?)
    ensures LevelOk(t.(at := at))
  {}

  lemma WakeKeeps(s: State, c: nat, a: Action)
    requires Inv(s) && Enabled(s, c, a) && (a.WakeOne? || a.WakeAll?)
    ensures Inv(Do(s, c, a))
  {
    hide Inv, HandOk, Transfer;
    Knows(s, c);
    match a
    case WakeOne(w) =>
      if s.List(Waiters(w)) != [] { CollectKeeps(s, c, w, Waking); CollectIs(s, c, w, Waking); }
    case WakeAll(w) => Carried(s, c, Collecting(w)); GotoKeeps(s, c, Collecting(w));
  }

  lemma CollectIs(s: State, c: nat, w: nat, at: Point)
    requires s.Shape() && c < |s.cpus| && s.List(Waiters(w)) != []
    ensures var q := s.List(Waiters(w));
            var s' := Transfer(s, c, Waiters(w), false, Hand(c), s.threads[q[0]], {}, at);
            && s' == s.RemHead(Waiters(w)).AddTail(Hand(c), q[0]).Goto(c, at)
            && (at == s.Thr(c).at ==> s' == s.RemHead(Waiters(w)).AddTail(Hand(c), q[0]))
  {}

  lemma CollectingKeeps(s: State, c: nat)
    requires Inv(s) && Enabled(s, c, Step) && s.Thr(c).phase.Go? && s.Thr(c).at.Collecting?
    ensures Inv(Do(s, c, Step))
  {
    hide Inv, HandOk, Transfer;
    Knows(s, c);
    var at := s.Thr(c).at;
    if s.List(Waiters(at.w)) == [] { Carried(s, c, Waking); GotoKeeps(s, c, Waking); }
    else { CollectKeeps(s, c, at.w, at); CollectIs(s, c, at.w, at); }
  }

  /** Migration moves a thread that keeps its record, or changes its processor, within lists the balancer may touch. */
  lemma MigrateKeeps(s: State, c: nat, n: ListName, back: bool, m: ListName, x: Thread, wake: set<nat>)
    requires Inv(s) && c < |s.cpus| && s.Thr(c).phase.Go? && Migrating(s.Thr(c).at) && s.List(n) != []
    requires (n == RunQueue(c) && back && m == Hand(c)) || (n == Hand(c) && !back && (m == Hand(c) || m.RunQueue?))
    requires var u := End(s, n, back);
      if m.RunQueue? && m.c != c then
        && u != s.Cur(c) && m.c < |s.cpus| && x == s.threads[u].(cpu := m.c)
        && (s.cpus[m.c].idle ==> m.c in wake)
      else x == s.threads[u]
    ensures Inv(Transfer(s, c, n, back, m, x, wake, s.Thr(c).at))
  {
    hide Inv, LocksOk, ListsOk, HandOk, Transfer, LevelOk, PlaceAt, HeldAt;
    InvParts(s);
    Knows(s, c);
    var u, at := End(s, n, back), s.Thr(c).at;
    Migrant(s, c, n, back);
    KnowsThread(s, u);
    TransferShape(s, c, n, back, m, x, wake, at);
    MigrateHand(s, c, n, back, m, x, wake);
    assert s.Thr(c).(at := at) == s.Thr(c);
    TransferKeeps(s, c, n, back, m, x, wake, at);
  }

  /** What the balancer has in hand, or takes, is ready and at home on its own processor. */
  lemma Migrant(s: State, c: nat, n: ListName, back: bool)
    requires Inv(s) && c < |s.cpus| && Migrating(s.Thr(c).at) && s.List(n) != [] && (n == RunQueue(c) || n == Hand(c))
    ensures var u := End(s, n, back); u in s.threads && s.threads[u].cpu == c && s.threads[u].state == Ready
  {
    hide Inv, LocksOk, View;
    InvParts(s);
    var u := End(s, n, back);
    assert Lists(s.List(n), s.place, n) && u in s.List(n);
    assert ThreadOk(s, u);
    Knows(s, c);
  }

  /** The hand after a move. */
  lemma MigrateList(s: State, c: nat, n: ListName, back: bool, m: ListName, x: Thread, wake: set<nat>, at: Point)
    requires s.Shape() && c < |s.cpus| && s.List(n) != []
    requires (n == RunQueue(c) && back && m == Hand(c)) || (n == Hand(c) && !back && (m == Hand(c) || m.RunQueue?))
    ensures var hand, hand' := s.List(Hand(c)), Transfer(s, c, n, back, m, x, wake, at).List(Hand(c));
            hand' == if n.RunQueue? then [End(s, n, back)] + hand
                     else if m.RunQueue? then hand[1..] else hand[1..] + [End(s, n, back)]
  {}

  lemma MigrateHand(s: State, c: nat, n: ListName, back: bool, m: ListName, x: Thread, wake: set<nat>)
    requires Inv(s) && c < |s.cpus| && Migrating(s.Thr(c).at) && s.List(n) != []
    requires (n == RunQueue(c) && back && m == Hand(c)) || (n == Hand(c) && !back && (m == Hand(c) || m.RunQueue?))
    requires m == Hand(c) ==> x == s.threads[End(s, n, back)]
    ensures var s' := Transfer(s, c, n, back, m, x, wake, s.Thr(c).at);
            HandOk(s'.threads, s'.List(Hand(c)), s.Thr(c).at, c)
  {
    hide Inv, LocksOk, ListsOk, View, Relist, LevelOk, HeldOk, PlaceAt, PlaceOk, Transfer;
    InvParts(s);
    Knows(s, c);
    Migrant(s, c, n, back);
    var at, hand, u := s.Thr(c).at, s.List(Hand(c)), End(s, n, back);
    MigrateList(s, c, n, back, m, x, wake, at);
    MigrateThreads(s, c, n, back, m, x, wake, at);
    HandOnce(s, c);
    HandMoved(s.threads, Transfer(s, c, n, back, m, x, wake, at).threads, hand,
              Transfer(s, c, n, back, m, x, wake, at).List(Hand(c)), at, c, u, m == Hand(c));
  }

  lemma HandOnce(s: State, c: nat)
    requires ListsOk(s)
    ensures var hand := s.List(Hand(c)); forall i, j :: 0 <= i < j < |hand| ==> hand[i] != hand[j]
  {
    assert Lists(s.List(Hand(c)), s.place, Hand(c));
  }

  /** Only the thread that moves and the running one change, and those keep processor and state if they stay in hand. */
  lemma MigrateThreads(s: State, c: nat, n: ListName, back: bool, m: ListName, x: Thread, wake: set<nat>, at: Point)
    requires s.Shape() && c < |s.cpus| && s.List(n) != [] && (m == Hand(c) ==> x == s.threads[End(s, n, back)])
    ensures var ts, u := Transfer(s, c, n, back, m, x, wake, at).threads, End(s, n, back);
      forall t :: t in s.threads && (t != u || m == Hand(c)) ==>
        t in ts && ts[t].cpu == s.threads[t].cpu && ts[t].state == s.threads[t].state
  {
    hide Relist;
  }

  /** What is in hand after u came into it, went to its end or left it. */
  lemma HandMoved(ts: map<Tid, Thread>, ts': map<Tid, Thread>, hand: seq<Tid>, hand': seq<Tid>, at: Point, c: nat,
                  u: Tid, stays: bool)
    requires HandOk(ts, hand, at, c) && Migrating(at) && u in ts && ts[u].cpu == c && ts[u].state == Ready
    requires forall i, j :: 0 <= i < j < |hand| ==> hand[i] != hand[j]
    requires forall t :: t in ts && (t != u || stays) ==>
      t in ts' && ts'[t].cpu == ts[t].cpu && ts'[t].state == ts[t].state
    requires if stays then hand' == [u] + hand || (hand != [] && hand' == hand[1..] + [u])
             else hand != [] && hand[0] == u && hand' == hand[1..]
    ensures HandOk(ts', hand', at, c)
  {
    forall i | 0 <= i < |hand'| ensures hand'[i] in ts' && ts'[hand'[i]].cpu == c && ts'[hand'[i]].state == Ready {
      assert hand'[i] == u || hand'[i] in hand;
    }
  }

  /** With nobody to interrupt, and the record and control where they were, only the lists change. */
  lemma OnlyLists(s: State, c: nat, n: ListName, back: bool, m: ListName)
    requires s.Shape() && c < |s.cpus| && s.List(n) != [] && End(s, n, back) in s.threads
    ensures Transfer(s, c, n, back, m, s.threads[End(s, n, back)], {}, s.Thr(c).at) == Relist(s, n, back, m)
  {}

  lemma TakeKeeps(s: State, c: nat)
    requires Inv(s) && Enabled(s, c, TakeOne)
    ensures Inv(Do(s, c, TakeOne))
  {
    hide Inv, Transfer;
    var q := s.List(RunQueue(c));
    assert q[|q| - 1] in s.threads;
    MigrateKeeps(s, c, RunQueue(c), true, Hand(c), s.threads[q[|q| - 1]], {});
    OnlyLists(s, c, RunQueue(c), true, Hand(c));
  }

  lemma GiveKeeps(s: State, c: nat)
    requires Inv(s) && Enabled(s, c, GiveOne)
    ensures Inv(Do(s, c, GiveOne))
  {
    hide Inv, Transfer;
    var u, d := s.List(Hand(c))[0], s.Thr(c).at.d;
    if u == s.Cur(c) {
      MigrateKeeps(s, c, Hand(c), false, Hand(c), s.threads[u], {});
      OnlyLists(s, c, Hand(c), false, Hand(c));
    } else {
      GiveAway(s, c);
    }
  }

  lemma GiveAway(s: State, c: nat)
    requires Inv(s) && Enabled(s, c, GiveOne) && s.List(Hand(c))[0] != s.Cur(c)
    ensures Inv(Do(s, c, GiveOne))
  {
    hide Inv, Transfer;
    var u, d := s.List(Hand(c))[0], s.Thr(c).at.d;
    var wake := if s.cpus[d].idle && d != c then {d} else {};
    Migrant(s, c, Hand(c), false);
    MigrateKeeps(s, c, Hand(c), false, RunQueue(d), s.threads[u].(cpu := d), wake);
    GiveIs(s, c);
  }

  lemma GiveIs(s: State, c: nat)
    requires Enabled(s, c, GiveOne) && s.List(Hand(c))[0] != s.Cur(c)
    ensures var u, d := s.List(Hand(c))[0], s.Thr(c).at.d;
            Do(s, c, GiveOne) == Transfer(s, c, Hand(c), false, RunQueue(d), s.threads[u].(cpu := d),
                                          if s.cpus[d].idle && d != c then {d} else {}, s.Thr(c).at)
  {
    var u, d := s.List(Hand(c))[0], s.Thr(c).at.d;
    assert s.unidle + {} == s.unidle;
    var ts := s.threads[u := s.threads[u].(cpu := d)];
    assert ts[s.Cur(c) := ts[s.Cur(c)].(at := s.Thr(c).at)] == ts;
  }

  lemma ReturningKeeps(s: State, c: nat)
    requires Inv(s) && Enabled(s, c, Step) && s.Thr(c).phase.Go? && s.Thr(c).at.Returning? && s.List(Hand(c)) != []
    ensures Inv(Do(s, c, Step))
  {
    hide Inv, Transfer;
    var u := s.List(Hand(c))[0];
    MigrateKeeps(s, c, Hand(c), false, RunQueue(c), s.threads[u], {});
    OnlyLists(s, c, Hand(c), false, RunQueue(c));
  }

  lemma JoinsMoves(s: State, c: nat, n: ListName, st: ThreadState, at: Point)
    requires s.Shape() && ListsOk(s) && c < |s.cpus| && s.place[s.Cur(c)] == Nowhere && !n.Hand?
    requires (n.RunQueue? ==> n.c == c) && !at.Idling?
    ensures var s' := Joins(s, c, n, st, at);
            s'.Shape() && ListsOk(s') && Moves(s, s', c, s.Cur(c), at) && s'.place == s.place[s.Cur(c) := On(n)]
  {
    AddKeeps(s, n, s.Cur(c));
    var s1, s' := s.AddTail(n, s.Cur(c)), Joins(s, c, n, st, at);
    hide ListsOk;
    SameListsOk(s1, s');
    assert forall k :: s'.List(k) == s1.List(k);
  }

  /** Where the goal puts the running thread, and where control goes then. */
  function GoalList(goal: Goal, c: nat): (n: ListName)
  {
    match goal case ToReady => RunQueue(c) case ToSleep(w) => Waiters(w) case ToZombie => Zombies(c)
  }

  function GoalPoint(goal: Goal, saved: int): (at: Point)
  {
    if goal.ToSleep? then Unguard(goal.w, saved) else StoreState(goal, saved)
  }

  lemma JoinsFit(s: State, c: nat, goal: Goal, st: ThreadState, saved: int)
    requires Inv(s) && c < |s.cpus| && s.Thr(c).phase.Go? && s.Thr(c).at == Enqueue(goal, saved)
    requires st == if goal.ToReady? then Ready else s.Thr(c).state
    ensures var s' := Joins(s, c, GoalList(goal, c), st, GoalPoint(goal, saved));
            s'.Shape() && s'.cpus == s.cpus && Fits(s, s', c, s.Cur(c))
  {
    hide Inv, LocksOk, ListsOk, HandOk, Moves, Joins, HeldOk;
    InvParts(s);
    Knows(s, c);
    var n, at := GoalList(goal, c), GoalPoint(goal, saved);
    JoinsMoves(s, c, n, st, at);
    JoinsIs(s, c, n, st, at);
    NoHand(s, c, s.Thr(c).(state := st, at := at));
    forall d | 0 <= d < |s.cpus| && d != c ensures s.Cur(d) != s.Cur(c) { OneStack(s, c, d); }
  }

  lemma JoinsKeep(s: State, c: nat, goal: Goal, st: ThreadState, saved: int)
    requires Inv(s) && c < |s.cpus| && s.Thr(c).phase.Go? && s.Thr(c).at == Enqueue(goal, saved)
    requires st == if goal.ToReady? then Ready else s.Thr(c).state
    ensures Inv(Joins(s, c, GoalList(goal, c), st, GoalPoint(goal, saved)))
  {
    hide Inv, LocksOk, ListsOk, HandOk, Moves, Joins, PlaceAt, PlaceOk, Fits;
    InvParts(s);
    Knows(s, c);
    assert s.place[s.Cur(c)] == Nowhere by { JoinsFrom(s, c); }
    JoinsMoves(s, c, GoalList(goal, c), st, GoalPoint(goal, saved));
    JoinsFit(s, c, goal, st, saved);
    MoveKeeps(s, Joins(s, c, GoalList(goal, c), st, GoalPoint(goal, saved)), c, s.Cur(c), GoalPoint(goal, saved));
  }

  lemma JoinsFrom(s: State, c: nat)
    requires Inv(s) && c < |s.cpus| && s.Thr(c).at.Enqueue?
    ensures s.place[s.Cur(c)] == Nowhere
  {
    hide Inv, HandOk, HeldOk;
    Knows(s, c);
  }

  lemma JoinsIs(s: State, c: nat, n: ListName, st: ThreadState, at: Point)
    requires s.Shape() && c < |s.cpus|
    ensures var s' := Joins(s, c, n, st, at);
            && s'.threads == s.threads[s.Cur(c) := s.Thr(c).(state := st, at := at)] && s'.cpus == s.cpus
            && (!n.Hand? ==> s'.List(Hand(c)) == s.List(Hand(c)))
  {}

  lemma EnqueueKeeps(s: State, c: nat)
    requires Inv(s) && Enabled(s, c, Step) && s.Thr(c).phase.Go? && s.Thr(c).at.Enqueue?
    requires !(s.Thr(c).at.goal.ToReady? && s.List(RunQueue(c)) == [])
    ensures Inv(Do(s, c, Step))
  {
    hide Inv, HandOk, HeldOk;
    Knows(s, c);
    var goal, saved := s.Thr(c).at.goal, s.Thr(c).at.saved;
    JoinsKeep(s, c, goal, if goal.ToReady? then Ready else s.Thr(c).state, saved);
  }

  lemma StoreKeeps(s: State, c: nat)
    requires Inv(s) && Enabled(s, c, Step) && s.Thr(c).phase.Go? && s.Thr(c).at.StoreState?
    ensures Inv(Do(s, c, Step))
  {
    hide Inv, HandOk;
    Knows(s, c);
    var goal, saved := s.Thr(c).at.goal, s.Thr(c).at.saved;
    var st := match goal case ToReady => Ready case ToSleep(w) => Sleep case ToZombie => Zombie;
    var t, p := s.Thr(c).(state := st, at := Pick(saved)), s.cpus[c].(idle := true);
    NoHand(s, c, t);
    LocalKeeps(s, c, t, p);
  }

  lemma ResumedKeeps(s: State, c: nat)
    requires Inv(s) && Enabled(s, c, Step) && s.Thr(c).phase.Go? && s.Thr(c).at.Resumed?
    ensures Inv(Do(s, c, Step))
  {
    hide Inv, HandOk;
    Knows(s, c);
    var t := s.Thr(c).(state := Run);
    NoHand(s, c, t);
    LocalKeeps(s, c, t, s.cpus[c]);
    var s1 := s.Local(c, t, s.cpus[c]);
    assert s1.HeldBy(c) == s.HeldBy(c) == {QueueLock(c)};
    Leaves(s1, c);
  }

  lemma Leaves(s: State, c: nat)
    requires Inv(s) && c < |s.cpus| && s.Thr(c).phase.Go? && s.Thr(c).at.Resumed?
    ensures Inv(s.BeginRelease(c, QueueLock(c), Exorcising(s.Thr(c).at.saved)))
  {
    hide Inv, HandOk;
    Knows(s, c);
    Carried(s, c, Exorcising(s.Thr(c).at.saved));
    ReleaseKeeps(s, c, QueueLock(c), Exorcising(s.Thr(c).at.saved));
  }

  // ---- The context switch ----

  /** The thread picked is at home here, and parked unless it is the one that is leaving. */
  lemma NextKnown(s: State, c: nat)
    requires Inv(s) && c < |s.cpus| && s.List(RunQueue(c)) != []
    ensures var n := s.List(RunQueue(c))[0];
      && n in s.threads && s.place[n] == On(RunQueue(c)) && s.threads[n].cpu == c && s.threads[n].state == Ready
      && (n == s.Cur(c) || Parked(s.threads[n], s.place[n]))
      && (forall d :: 0 <= d < |s.cpus| && d != c ==> s.Cur(d) != n)
  {
    hide Inv, LocksOk, ListsOk, Parked, PlaceAt;
    InvParts(s);
    var n := s.List(RunQueue(c))[0];
    assert Lists(s.List(RunQueue(c)), s.place, RunQueue(c)) && n in s.List(RunQueue(c));
    KnowsThread(s, n);
  }

  lemma PickedShape(s: State, c: nat)
    requires Inv(s) && c < |s.cpus| && s.List(RunQueue(c)) != [] && s.Thr(c).at.Pick? && s.Thr(c).phase.Go?
    ensures var s', t, n := Picked(s, c), s.Cur(c), s.List(RunQueue(c))[0];
      && s'.Shape() && ListsOk(s') && s'.place == s.place[n := Nowhere]
      && (forall k :: k != RunQueue(c) ==> s'.List(k) == s.List(k))
      && s'.threads == s.threads[t := s.threads[t].(at := Resumed(s.Thr(c).at.saved))]
      && s'.cpus == s.cpus[c := s.cpus[c].(cur := n, idle := false)]
      && s'.locks == s.locks && s'.unidle == s.unidle
  {
    hide Inv, LocksOk, ListsOk;
    InvParts(s);
    NextKnown(s, c);
    RemoveKeeps(s, RunQueue(c));
    var s1, s' := s.RemHead(RunQueue(c)), Picked(s, c);
    SameListsOk(s1, s');
    assert forall k :: s'.List(k) == s1.List(k);
  }

  lemma PickedOthers(s: State, c: nat, d: nat)
    requires Inv(s) && c < |s.cpus| && s.List(RunQueue(c)) != [] && s.Thr(c).at.Pick? && s.Thr(c).phase.Go?
    requires d < |s.cpus| && d != c
    ensures var s' := Picked(s, c);
      s'.Shape() && CpuOk(s', d) && s'.Thr(d) == s.Thr(d)
  {
    hide Inv, LocksOk, ListsOk, Picked, Parked, View, HandOk;
    InvParts(s);
    var s' := Picked(s, c);
    PickedShape(s, c);
    NextKnown(s, c);
    OneStack(s, c, d);
    Knows(s, d);
    assert s'.HeldBy(d) == s.HeldBy(d);
    assert HandOk(s'.threads, s.List(Hand(d)), s.Thr(d).at, d) by {
      HandMembers(s, d);
      HandKeeps(s.threads, s'.threads, s.List(Hand(d)), s.Thr(d).at, d);
    }
  }

  lemma HandMembers(s: State, c: nat)
    requires s.Shape()
    ensures forall i :: 0 <= i < |s.List(Hand(c))| ==> s.List(Hand(c))[i] in s.threads
  {}

  lemma PickedSelf(s: State, c: nat)
    requires Inv(s) && c < |s.cpus| && s.List(RunQueue(c)) != [] && s.Thr(c).at.Pick? && s.Thr(c).phase.Go?
    ensures var s' := Picked(s, c);
      s'.Shape() && CpuOk(s', c) && s'.Thr(c).phase.Go?
  {
    hide Inv, LocksOk, ListsOk, Picked, HandOk, View, Parked;
    InvParts(s);
    var s', n := Picked(s, c), s.List(RunQueue(c))[0];
    PickedShape(s, c);
    NextKnown(s, c);
    Knows(s, c);
    assert s'.HeldBy(c) == s.HeldBy(c);
    PickedView(c, s.cpus[c], s.Thr(c), s.threads[n], s.HeldBy(c), s.place[s.Cur(c)], s.place[n], n, n == s.Cur(c));
    assert s.List(Hand(c)) == [] && HandOk(s'.threads, [], s'.Thr(c).at, c) by {
      NoHand(s, c, s.Thr(c));
      EmptyHand(s'.threads, s'.Thr(c).at, c);
    }
  }

  /** What the processor knows of the thread it has switched to, which may be the same one. */
  lemma PickedView(c: nat, p: Cpu, t: Thread, t': Thread, h: set<LockName>, pl: Place, pl': Place, n: Tid, same: bool)
    requires View(c, p, t, h, pl) && t.at.Pick? && t.phase.Go? && t'.cpu == c
    requires if same then t' == t else Parked(t', pl')
    ensures View(c, p.(cur := n, idle := false), if same then t.(at := Resumed(t.at.saved)) else t', h, Nowhere)
    ensures same || (t'.at.Resumed? && t'.phase.Go?)
  {}

  lemma EmptyHand(threads: map<Tid, Thread>, at: Point, c: nat)
    requires !at.Placing?
    ensures HandOk(threads, [], at, c)
  {}

  lemma PickedThread(s: State, c: nat, u: Tid)
    requires Inv(s) && c < |s.cpus| && s.List(RunQueue(c)) != [] && s.Thr(c).at.Pick? && s.Thr(c).phase.Go?
    requires u in s.threads
    ensures var s' := Picked(s, c);
      s'.Shape() && u in s'.threads && ThreadOk(s', u)
  {
    hide Inv, LocksOk, ListsOk, Picked, HandOk;
    InvParts(s);
    var s' := Picked(s, c);
    PickedShape(s, c);
    NextKnown(s, c);
    Knows(s, c);
    KnowsThread(s, u);
  }

  lemma PickKeeps(s: State, c: nat)
    requires Inv(s) && c < |s.cpus| && s.List(RunQueue(c)) != [] && s.Thr(c).at.Pick? && s.Thr(c).phase.Go?
    ensures Inv(Picked(s, c))
  {
    var s' := Picked(s, c);
    InvParts(s);
    PickedShape(s, c);
    forall d | 0 <= d < |s.cpus| ensures CpuOk(s', d) {
      if d == c { PickedSelf(s, c); } else { PickedOthers(s, c, d); }
    }
    forall d | 0 <= d < |s.cpus| && d != c ensures s'.Thr(d).phase == s.Thr(d).phase { PickedOthers(s, c, d); }
    forall u | u in s.threads ensures u in s'.threads && ThreadOk(s', u) { PickedThread(s, c, u); }
    hide CpuOk, ThreadOk, LocksOk, ListsOk, Picked;
    PickedSelf(s, c);
    LocksSame(s, s', c);
  }

  // ---- Threads come and go ----

  /** A thread nobody knew is on no list. */
  lemma NewThread(s: State, u: Tid, t: Thread)
    requires s.Shape() && ListsOk(s) && u !in s.threads
    ensures var s' := s.(threads := s.threads[u := t], place := s.place[u := Nowhere]);
            s'.Shape() && ListsOk(s')
  {
    var s' := s.(threads := s.threads[u := t], place := s.place[u := Nowhere]);
    forall n ensures Lists(s'.List(n), s'.place, n) && s'.List(n) == s.List(n) { assert Lists(s.List(n), s.place, n); }
  }

  lemma ForkLists(s: State, c: nat, u: Tid, d: nat)
    requires s.Shape() && ListsOk(s) && c < |s.cpus| && u !in s.threads
    ensures var s' := Forked(s, c, u, d);
      && s'.Shape() && ListsOk(s') && s'.place == s.place[u := On(Hand(c))]
      && s'.threads == s.threads[u := Thread(d, Ready, 1, 2, NoInterrupt, Resumed(0), Go)]
                                [s.Cur(c) := s.Thr(c).(at := Waking)]
      && s'.cpus == s.cpus && s'.locks == s.locks && s'.unidle == s.unidle
      && (forall n :: n != Hand(c) ==> s'.List(n) == s.List(n))
  {
    hide ListsOk;
    var t := Thread(d, Ready, 1, 2, NoInterrupt, Resumed(0), Go);
    var s1 := s.(threads := s.threads[u := t], place := s.place[u := Nowhere]);
    var s' := Forked(s, c, u, d);
    NewThread(s, u, t);
    AddKeeps(s1, Hand(c), u);
    var s2 := s1.AddTail(Hand(c), u);
    assert s2.place == s.place[u := On(Hand(c))];
    SameListsOk(s2, s');
    assert forall n :: s'.List(n) == s2.List(n);
  }

  lemma ForkSelf(s: State, c: nat, u: Tid, d: nat)
    requires Inv(s) && Enabled(s, c, Fork(u, d))
    ensures var s' := Forked(s, c, u, d); s'.Shape() && CpuOk(s', c) && s'.Thr(c).phase == s.Thr(c).phase
  {
    hide Inv, LocksOk, ListsOk, Forked, HandOk, PlaceAt;
    InvParts(s);
    var s' := Forked(s, c, u, d);
    ForkLists(s, c, u, d);
    Knows(s, c);
    assert s'.HeldBy(c) == s.HeldBy(c);
    BusyPlace(s.Thr(c), s'.Thr(c), s.place[s.Cur(c)], Nowhere);
    AnyHand(s', c, Waking);
  }

  lemma ForkOther(s: State, c: nat, u: Tid, d: nat, e: nat)
    requires Inv(s) && Enabled(s, c, Fork(u, d)) && e < |s.cpus| && e != c
    ensures var s' := Forked(s, c, u, d); s'.Shape() && CpuOk(s', e) && s'.Thr(e).phase == s.Thr(e).phase
  {
    hide Inv, LocksOk, ListsOk, Forked, HandOk, View;
    InvParts(s);
    var s' := Forked(s, c, u, d);
    ForkLists(s, c, u, d);
    Knows(s, e);
    assert s'.HeldBy(e) == s.HeldBy(e);
    OneStack(s, c, e);
    ForkHand(s, s', c, e);
  }

  lemma ForkHand(s: State, s': State, c: nat, e: nat)
    requires s.Shape() && s'.Shape() && c < |s.cpus| && e < |s.cpus|
    requires HandOk(s.threads, s.List(Hand(e)), s.Thr(e).at, e)
    requires forall x :: x in s.threads ==> x in s'.threads && s'.threads[x] == s.threads[x].(at := s'.threads[x].at)
    ensures HandOk(s'.threads, s.List(Hand(e)), s.Thr(e).at, e)
  {}

  lemma ForkThread(s: State, c: nat, u: Tid, d: nat, x: Tid)
    requires Inv(s) && Enabled(s, c, Fork(u, d)) && (x in s.threads || x == u)
    ensures var s' := Forked(s, c, u, d); s'.Shape() && x in s'.threads && ThreadOk(s', x)
  {
    hide Inv, LocksOk, ListsOk, Forked, HandOk, PlaceAt;
    InvParts(s);
    ForkLists(s, c, u, d);
    Knows(s, c);
    if x != u { KnowsThread(s, x); }
  }

  lemma ForkKeeps(s: State, c: nat, u: Tid, d: nat)
    requires Inv(s) && Enabled(s, c, Fork(u, d))
    ensures Inv(Forked(s, c, u, d))
  {
    hide LocksOk, ListsOk, CpuOk, ThreadOk, Forked;
    var s' := Forked(s, c, u, d);
    ForkLists(s, c, u, d);
    forall e | 0 <= e < |s.cpus| ensures CpuOk(s', e) && s'.Thr(e).phase == s.Thr(e).phase {
      if e == c { ForkSelf(s, c, u, d); } else { ForkOther(s, c, u, d, e); }
    }
    forall x | x in s'.threads ensures ThreadOk(s', x) { ForkThread(s, c, u, d, x); }
    LocksSame(s, s', c);
  }

  /** A zombie on the list of a processor that is running another thread is nobody's current thread. */
  lemma ZombieKnown(s: State, c: nat)
    requires Inv(s) && c < |s.cpus| && s.Thr(c).phase.Go? && s.Thr(c).at.Exorcising? && s.List(Zombies(c)) != []
    ensures var z := s.List(Zombies(c))[0];
      && z in s.threads && s.place[z] == On(Zombies(c)) && s.threads[z].state == Zombie
      && (forall d :: 0 <= d < |s.cpus| ==> s.Cur(d) != z)
  {
    hide Inv, LocksOk, ListsOk, HandOk, HeldOk;
    InvParts(s);
    var z := s.List(Zombies(c))[0];
    assert Lists(s.List(Zombies(c)), s.place, Zombies(c)) && z in s.List(Zombies(c));
    KnowsThread(s, z);
    Knows(s, c);
  }

  lemma DestroyLists(s: State, c: nat)
    requires s.Shape() && ListsOk(s) && s.List(Zombies(c)) != []
    requires forall d :: 0 <= d < |s.cpus| ==> s.Cur(d) != s.List(Zombies(c))[0]
    ensures var s', z := Destroyed(s, c), s.List(Zombies(c))[0];
      && s'.Shape() && ListsOk(s') && s'.place == s.place - {z} && s'.threads == s.threads - {z}
      && s'.cpus == s.cpus && s'.locks == s.locks && s'.unidle == s.unidle
      && (forall n :: n != Zombies(c) ==> s'.List(n) == s.List(n))
  {
    var s', z := Destroyed(s, c), s.List(Zombies(c))[0];
    RemoveKeeps(s, Zombies(c));
    var s1 := s.RemHead(Zombies(c));
    forall n ensures Lists(s'.List(n), s'.place, n) && s'.List(n) == s1.List(n) {
      assert Lists(s1.List(n), s1.place, n);
    }
    forall d | 0 <= d < |s.cpus| ensures s'.cpus[d].cur in s'.threads { assert s.Cur(d) != z; }
    forall n, i | 0 <= i < |s'.List(n)| ensures s'.List(n)[i] in s'.threads {
      assert Lists(s'.List(n), s'.place, n) && s'.List(n)[i] in s'.List(n);
    }
  }

  lemma DestroyKeeps(s: State, c: nat)
    requires Inv(s) && c < |s.cpus| && s.Thr(c).phase.Go? && s.Thr(c).at.Exorcising? && s.List(Zombies(c)) != []
    ensures Inv(Destroyed(s, c))
  {
    hide Inv, LocksOk, ListsOk, Destroyed, View, Parked, PlaceOk, HandOk;
    InvParts(s);
    var s', z := Destroyed(s, c), s.List(Zombies(c))[0];
    ZombieKnown(s, c);
    DestroyLists(s, c);
    assert forall d :: s'.HeldBy(d) == s.HeldBy(d);
    forall d | 0 <= d < |s.cpus| ensures CpuOk(s', d) {
      Knows(s, d);
      DestroyHand(s, s', d);
    }
    forall x | x in s'.threads ensures ThreadOk(s', x) { assert ThreadOk(s, x); }
    LocksSame(s, s', c);
    assert Inv(s') by { Assemble(s'); }
  }

  lemma DestroyHand(s: State, s': State, d: nat)
    requires s.Shape() && s'.Shape() && d < |s.cpus| && s'.List(Hand(d)) == s.List(Hand(d))
    requires HandOk(s.threads, s.List(Hand(d)), s.Thr(d).at, d)
    requires forall x :: x in s'.threads ==> x in s.threads && s'.threads[x] == s.threads[x]
    ensures HandOk(s'.threads, s.List(Hand(d)), s.Thr(d).at, d)
  {}

  lemma Assemble(s: State)
    requires s.Shape() && LocksOk(s) && ListsOk(s)
    requires forall c :: 0 <= c < |s.cpus| ==> CpuOk(s, c)
    requires forall u :: u in s.threads ==> ThreadOk(s, u)
    ensures Inv(s)
  {}

  // ---- Whole runs ----

  lemma AdvanceKeeps(s: State, c: nat)
    requires Inv(s) && Enabled(s, c, Step) && s.Thr(c).phase.Go?
    ensures Inv(Do(s, c, Step))
  {
    hide Inv, HandOk, HeldOk, PlaceAt, PlaceOk, Forked, Destroyed, Picked, Joins;
    var at := s.Thr(c).at;
    match at
    case Collecting(w) => CollectingKeeps(s, c);
    case Waking => WakingKeeps(s, c);
    case Placing(d) => PlacingKeeps(s, c);
    case Placed(d) => UnlocksKeep(s, c);
    case Peek(d) => UnlocksKeep(s, c);
    case Returning => if s.List(Hand(c)) == [] { UnlocksKeep(s, c); } else { ReturningKeeps(s, c); }
    case Enqueue(goal, saved) =>
      if goal.ToReady? && s.List(RunQueue(c)) == [] { SwitchUnlocksKeep(s, c); } else { EnqueueKeeps(s, c); }
    case Unguard(w, saved) => SwitchUnlocksKeep(s, c);
    case StoreState(goal, saved) => StoreKeeps(s, c);
    case Pick(saved) => if s.List(RunQueue(c)) == [] { SwitchUnlocksKeep(s, c); } else { PickKeeps(s, c); }
    case Resumed(saved) => ResumedKeeps(s, c);
    case Exorcising(saved) =>
      if s.List(Zombies(c)) == [] { Knows(s, c); LevelKeeps(s, c, saved); } else { DestroyKeeps(s, c); }
    case Restoring(saved) => Knows(s, c); LevelKeeps(s, c, saved);
  }

  /** Every step of every processor keeps the invariant. */
  lemma DoKeeps(s: State, c: nat, a: Action)
    requires Inv(s) && Enabled(s, c, a)
    ensures Inv(Do(s, c, a))
  {
    hide Inv;
    match a
    case Level(spl) => LevelKeeps(s, c, spl);
    case Interrupt(ipi) => InterruptKeeps(s, c, ipi);
    case ReturnFromInterrupt => ReturnKeeps(s, c);
    case Acquire(l) => AcquiresKeep(s, c, a);
    case Release(l) => ReleasesKeep(s, c, a);
    case WakeOne(w) => WakeKeeps(s, c, a);
    case WakeAll(w) => WakeKeeps(s, c, a);
    case Fork(u, d) => ForkKeeps(s, c, u, d);
    case Count(d) => AcquiresKeep(s, c, a);
    case TakeVictims => AcquiresKeep(s, c, a);
    case TakeOne => TakeKeeps(s, c);
    case TakeDone => ReleasesKeep(s, c, a);
    case SendTo(d) => SendingKeeps(s, c, a);
    case GiveOne => GiveKeeps(s, c);
    case GiveDone => ReleasesKeep(s, c, a);
    case ReturnLeftovers => SendingKeeps(s, c, a);
    case Switch(goal) => SwitchKeeps(s, c, goal);
    case Step => if s.Thr(c).phase.Go? { AdvanceKeeps(s, c); } else { PhaseKeeps(s, c); }
  }

  /** A booted machine: each processor runs its boot thread, with interrupts off, and nothing else exists. */
  ghost predicate Booted(s: State)
  {
    && |s.cpus| > 0 && s.locks == map[] && s.lists == map[] && s.unidle == {}
    && (forall t: nat :: t in s.threads <==> t < |s.cpus|)
    && s.place.Keys == s.threads.Keys
    && (forall c :: 0 <= c < |s.cpus| ==>
          && s.cpus[c] == Cpu(c, 0, false, false) && s.place[c] == Nowhere
          && s.threads[c] == Thread(c, Ready, 1, 1, NoInterrupt, Work, Go))
  }

  /** A run: processor moves[i].0 does moves[i].1. */
  ghost predicate IsRun(states: seq<State>, moves: seq<(nat, Action)>)
  {
    && |states| == |moves| + 1 && Booted(states[0])
    && (forall i :: 0 <= i < |moves| ==>
          Enabled(states[i], moves[i].0, moves[i].1) && states[i + 1] == Do(states[i], moves[i].0, moves[i].1))
  }

  lemma BootKeeps(s: State)
    requires Booted(s)
    ensures Inv(s)
  {
    assert forall c :: s.HeldBy(c) == {};
    assert forall n :: s.List(n) == [];
    assert s.Shape();
  }

  lemma {:induction false} RunsKeep(states: seq<State>, moves: seq<(nat, Action)>, i: nat)
    requires IsRun(states, moves) && i < |states|
    ensures Inv(states[i])
  {
    hide Inv, Booted, Enabled, Do;
    if i == 0 {
      BootKeeps(states[0]);
    } else {
      RunsKeep(states, moves, i - 1);
      DoKeeps(states[i - 1], moves[i - 1].0, moves[i - 1].1);
    }
  }

  lemma RunStep(states: seq<State>, moves: seq<(nat, Action)>, i: nat)
    requires IsRun(states, moves) && i < |moves|
    ensures Enabled(states[i], moves[i].0, moves[i].1) && states[i + 1] == Do(states[i], moves[i].0, moves[i].1)
  {
    hide Booted, Enabled, Do;
  }

  // ---- What every run promises ----

  /** A thread that is switched out, or forked and not yet started, has level 1 and count 2. */
  lemma SwitchedOut(states: seq<State>, moves: seq<(nat, Action)>, i: nat, u: Tid)
    requires IsRun(states, moves) && i < |states|
    requires u in states[i].threads && (forall c :: 0 <= c < |states[i].cpus| ==> states[i].cpus[c].cur != u)
    ensures states[i].threads[u].curspl == 1 && states[i].threads[u].ipl == 2
  {
    hide Inv, IsRun, PlaceAt, PlaceOk;
    RunsKeep(states, moves, i);
    KnowsThread(states[i], u);
  }

  /** The running thread's count is its level plus its processor's spinlocks; interrupts are on exactly at zero. */
  lemma RunningLevel(states: seq<State>, moves: seq<(nat, Action)>, i: nat, c: nat)
    requires IsRun(states, moves) && i < |states| && c < |states[i].cpus|
    ensures states[i].Shape()
    ensures var t, p := states[i].Thr(c), states[i].cpus[c];
      && t.ipl == t.curspl + p.spinlocks + (if t.phase.Dropping? then 1 else 0)
      && p.spinlocks == |states[i].HeldBy(c)| + (if t.phase.Spinning? || t.phase.Won? then 1 else 0)
      && (p.irqOn <==> t.ipl == 0) && t.cpu == c
  {
    hide Inv, IsRun, HandOk, LevelOk, HeldOk, PlaceAt, PlaceOk;
    RunsKeep(states, moves, i);
    Knows(states[i], c);
  }

  /** A thread back from the context switch holds its present processor's run-queue lock, and nothing else. */
  lemma ResumedUnlocks(states: seq<State>, moves: seq<(nat, Action)>, i: nat, c: nat)
    requires IsRun(states, moves) && i < |states| && c < |states[i].cpus|
    ensures states[i].Shape()
    ensures states[i].Thr(c).at.Resumed? && states[i].Thr(c).phase.Go? ==>
            states[i].Thr(c).cpu == c && states[i].HeldBy(c) == {QueueLock(c)}
  {
    hide Inv, IsRun, HandOk, LevelOk, PlaceAt, PlaceOk;
    RunsKeep(states, moves, i);
    Knows(states[i], c);
  }

  /** No two processors run on one thread's stack. */
  lemma OneProcessor(states: seq<State>, moves: seq<(nat, Action)>, i: nat, c: nat, d: nat)
    requires IsRun(states, moves) && i < |states| && c < d < |states[i].cpus|
    ensures states[i].cpus[c].cur != states[i].cpus[d].cur
  {
    hide Inv, IsRun;
    RunsKeep(states, moves, i);
    OneStack(states[i], c, d);
  }

  /** No thread is lost: one that no processor is running is on a list. */
  lemma SomeList(states: seq<State>, moves: seq<(nat, Action)>, i: nat, u: Tid) returns (n: ListName)
    requires IsRun(states, moves) && i < |states|
    requires u in states[i].threads && (forall c :: 0 <= c < |states[i].cpus| ==> states[i].cpus[c].cur != u)
    ensures u in states[i].List(n)
  {
    hide Inv, IsRun, PlaceAt, PlaceOk, LocksOk;
    RunsKeep(states, moves, i);
    var s := states[i];
    KnowsThread(s, u);
    InvParts(s);
    n := s.place[u].list;
    assert Lists(s.List(n), s.place, n);
  }

  /** A thread is on at most one list, and there once. */
  lemma OneList(states: seq<State>, moves: seq<(nat, Action)>, i: nat, n: ListName, j: nat, m: ListName, k: nat)
    requires IsRun(states, moves) && i < |states| && j < |states[i].List(n)| && k < |states[i].List(m)|
    requires states[i].List(n)[j] == states[i].List(m)[k]
    ensures n == m && j == k
  {
    hide Inv, IsRun, LocksOk;
    RunsKeep(states, moves, i);
    var s := states[i];
    InvParts(s);
    assert Lists(s.List(n), s.place, n) && Lists(s.List(m), s.place, m);
    assert s.List(n)[j] in s.List(n) && s.List(m)[k] in s.List(m);
  }

  /** A thread on a run queue is ready and at home there: no late store undoes what its waker stored. */
  lemma QueuedReady(states: seq<State>, moves: seq<(nat, Action)>, i: nat, c: nat, u: Tid)
    requires IsRun(states, moves) && i < |states| && u in states[i].List(RunQueue(c))
    ensures u in states[i].threads && states[i].threads[u].state == Ready
    ensures states[i].threads[u].cpu == c < |states[i].cpus|
  {
    hide Inv, IsRun, LocksOk, Parked, PlaceAt;
    RunsKeep(states, moves, i);
    InvParts(states[i]);
    assert Lists(states[i].List(RunQueue(c)), states[i].place, RunQueue(c));
    KnowsThread(states[i], u);
  }

  /** The current thread of processor c is past the context switch and on no list: it is not on its way in or out. */
  predicate Executing(s: State, c: nat)
    requires c < |s.cpus| && s.cpus[c].cur in s.threads && s.cpus[c].cur in s.place
  {
    s.place[s.Cur(c)] == Nowhere && !s.Thr(c).at.Resumed?
  }

  /** Processor c's code stores S_RUN, after a context switch or on a new thread. */
  predicate StoresRun(s: State, c: nat, a: Action)
    requires c < |s.cpus| && s.cpus[c].cur in s.threads
  {
    a.Step? && s.Thr(c).phase.Go? && s.Thr(c).at.Resumed?
  }

  /** Some move of processor c before the i-th did so. */
  ghost predicate HasSwitched(states: seq<State>, moves: seq<(nat, Action)>, i: nat, c: nat)
    requires IsRun(states, moves) && i < |states|
  {
    exists j :: 0 <= j < i && moves[j].0 == c && StoresRun(states[j], c, moves[j].1)
  }

  /** The ends of a list are threads on a list. */
  ghost predicate EndsListed(s: State, u: Tid)
  {
    forall n :: s.List(n) != [] && (s.List(n)[0] == u || s.List(n)[|s.List(n)| - 1] == u) ==>
      u in s.place && s.place[u].On?
  }

  lemma EndsKnown(s: State, u: Tid)
    requires ListsOk(s)
    ensures EndsListed(s, u)
  {
    forall n | s.List(n) != [] && (s.List(n)[0] == u || s.List(n)[|s.List(n)| - 1] == u)
      ensures u in s.place && s.place[u].On?
    {
      assert Lists(s.List(n), s.place, n) && u in s.List(n);
    }
  }

  lemma EndListed(s: State, u: Tid, n: ListName)
    requires EndsListed(s, u) && s.List(n) != []
    ensures s.List(n)[0] == u || s.List(n)[|s.List(n)| - 1] == u ==> u in s.place && s.place[u].On?
  {}

  /** A thread that a step neither runs nor picks stays as it is, or on a list. */
  ghost predicate LeavesAlone(s: State, s': State, u: Tid)
    requires u in s.threads && u in s.place
  {
    u in s'.threads && u in s'.place ==>
      if s.place[u].On? then s'.place[u].On? else s'.place[u] == Nowhere && s'.threads[u] == s.threads[u]
  }

  /** Points at which a step moves a thread other than the running one. */
  predicate MovesOthers(at: Point)
  {
    at.Collecting? || at.Placing? || at.Returning? || at.Pick? || at.Exorcising?
  }

  lemma AdvanceSelf(s: State, d: nat, u: Tid)
    requires Enabled(s, d, Step) && s.Thr(d).phase.Go? && u in s.threads && u != s.Cur(d)
    requires !MovesOthers(s.Thr(d).at)
    ensures LeavesAlone(s, Advance(s, d), u)
  {}

  lemma AdvanceMoves(s: State, d: nat, u: Tid)
    requires Enabled(s, d, Step) && s.Thr(d).phase.Go? && u in s.threads && u != s.Cur(d) && EndsListed(s, u)
    requires MovesOthers(s.Thr(d).at)
    requires s.Thr(d).at.Pick? ==> s.List(RunQueue(d)) == [] || s.List(RunQueue(d))[0] != u
    ensures LeavesAlone(s, Advance(s, d), u)
  {
    hide EndsListed;
    var at := s.Thr(d).at;
    var n := if at.Collecting? then Waiters(at.w) else if at.Pick? then RunQueue(d)
             else if at.Exorcising? then Zombies(d) else Hand(d);
    if s.List(n) != [] { EndListed(s, u, n); }
  }

  lemma DoOther(s: State, d: nat, a: Action, u: Tid)
    requires Enabled(s, d, a) && u in s.threads && u != s.Cur(d) && EndsListed(s, u)
    requires s.Thr(d).at.Pick? ==> s.List(RunQueue(d)) == [] || s.List(RunQueue(d))[0] != u
    ensures LeavesAlone(s, Do(s, d, a), u)
  {
    hide Advance, EndsListed, LeavesAlone;
    if TakesFromList(a) { ListOther(s, d, a, u); }
    else if a.Step? && s.Thr(d).phase.Go? {
      if MovesOthers(s.Thr(d).at) { AdvanceMoves(s, d, u); } else { AdvanceSelf(s, d, u); }
    } else { PlainOther(s, d, a, u); }
  }

  predicate TakesFromList(a: Action) { a.WakeOne? || a.TakeOne? || a.GiveOne? }

  lemma ListOther(s: State, d: nat, a: Action, u: Tid)
    requires Enabled(s, d, a) && u in s.threads && u != s.Cur(d) && EndsListed(s, u) && TakesFromList(a)
    ensures LeavesAlone(s, Do(s, d, a), u)
  {
    hide Advance, EndsListed;
    var n := if a.WakeOne? then Waiters(a.w) else if a.TakeOne? then RunQueue(d) else Hand(d);
    if s.List(n) != [] { EndListed(s, u, n); }
  }

  lemma PlainOther(s: State, d: nat, a: Action, u: Tid)
    requires Enabled(s, d, a) && u in s.threads && u != s.Cur(d) && !TakesFromList(a)
    requires !(a.Step? && s.Thr(d).phase.Go?)
    ensures LeavesAlone(s, Do(s, d, a), u)
  {
    hide Advance;
  }

  /** What a step does to the thread it runs: the state of one that is executing changes only where S_RUN is stored. */
  ghost predicate KeepsState(s: State, s': State, c: nat, a: Action)
    requires s.Shape() && c < |s.cpus| && |s'.cpus| == |s.cpus|
  {
    && s'.cpus[c].cur in s'.threads && s'.cpus[c].cur in s'.place
    && (Executing(s', c) ==>
          if StoresRun(s, c, a) then s'.Thr(c).state.Run? else Executing(s, c) && s'.Thr(c).state == s.Thr(c).state)
  }

  lemma StateMoves(s: State, c: nat)
    requires Enabled(s, c, Step) && s.Thr(c).phase.Go? && EndsListed(s, s.Cur(c))
    requires MovesOthers(s.Thr(c).at) && !s.Thr(c).at.Pick?
    requires s.Thr(c).at.Exorcising? ==> s.place[s.Cur(c)] == Nowhere
    ensures |Advance(s, c).cpus| == |s.cpus| && KeepsState(s, Advance(s, c), c, Step)
  {
    hide EndsListed;
    var at := s.Thr(c).at;
    var n := if at.Collecting? then Waiters(at.w) else if at.Exorcising? then Zombies(c) else Hand(c);
    if s.List(n) != [] { EndListed(s, s.Cur(c), n); }
  }

  lemma StateStays(s: State, c: nat)
    requires Enabled(s, c, Step) && s.Thr(c).phase.Go? && !MovesOthers(s.Thr(c).at) && !Leaving(s.Thr(c).at)
    ensures |Advance(s, c).cpus| == |s.cpus| && KeepsState(s, Advance(s, c), c, Step)
  {
    hide State.Shape;
    CurThere(s, c);
  }

  lemma StateLeaves(s: State, c: nat)
    requires Enabled(s, c, Step) && s.Thr(c).phase.Go? && Leaving(s.Thr(c).at)
    requires s.Thr(c).at.StoreState? ==> s.place[s.Cur(c)].On?
    ensures |Advance(s, c).cpus| == |s.cpus| && KeepsState(s, Advance(s, c), c, Step)
  {
    hide State.Shape;
    CurThere(s, c);
  }

  /** On the way out of the processor, in thread_switch. */
  predicate Leaving(at: Point) { at.Enqueue? || at.Unguard? || at.StoreState? }

  lemma CurThere(s: State, c: nat)
    requires s.Shape() && c < |s.cpus|
    ensures s.Cur(c) in s.threads && s.Cur(c) in s.place
  {}

  lemma StatePick(s: State, c: nat)
    requires Inv(s) && Enabled(s, c, Step) && s.Thr(c).phase.Go? && s.Thr(c).at.Pick?
    ensures |Advance(s, c).cpus| == |s.cpus| && KeepsState(s, Advance(s, c), c, Step)
  {
    hide Inv, Picked, PlaceAt, PlaceOk, LevelOk, HeldOk;
    if s.List(RunQueue(c)) != [] {
      PickedShape(s, c);
      NextKnown(s, c);
    }
  }

  lemma AdvanceState(s: State, c: nat)
    requires Inv(s) && Enabled(s, c, Step) && s.Thr(c).phase.Go?
    ensures |Advance(s, c).cpus| == |s.cpus| && KeepsState(s, Advance(s, c), c, Step)
  {
    hide Inv, Advance, KeepsState, HeldOk, HandOk;
    Knows(s, c);
    InvParts(s);
    EndsKnown(s, s.Cur(c));
    if s.Thr(c).at.Pick? { StatePick(s, c); }
    else if MovesOthers(s.Thr(c).at) { StateMoves(s, c); }
    else if Leaving(s.Thr(c).at) { StateLeaves(s, c); }
    else { StateStays(s, c); }
  }

  lemma ListState(s: State, c: nat, a: Action)
    requires Enabled(s, c, a) && TakesFromList(a) && EndsListed(s, s.Cur(c))
    ensures |Do(s, c, a).cpus| == |s.cpus| && KeepsState(s, Do(s, c, a), c, a)
  {
    hide Advance, EndsListed;
    var n := if a.WakeOne? then Waiters(a.w) else if a.TakeOne? then RunQueue(c) else Hand(c);
    if s.List(n) != [] { EndListed(s, s.Cur(c), n); }
  }

  /** Actions that begin to take or drop a spinlock. */
  predicate Locks(a: Action)
  {
    || a.Acquire? || a.Release? || a.Count? || a.TakeVictims? || a.TakeDone? || a.SendTo? || a.GiveDone?
    || a.ReturnLeftovers?
  }

  lemma LockState(s: State, c: nat, a: Action)
    requires Enabled(s, c, a) && Locks(a)
    ensures |Do(s, c, a).cpus| == |s.cpus| && KeepsState(s, Do(s, c, a), c, a)
  {
    hide Advance, State.Shape;
    CurThere(s, c);
  }

  lemma SwitchState(s: State, c: nat, a: Action)
    requires Enabled(s, c, a) && (a.Switch? || a.ReturnFromInterrupt?)
    ensures |Do(s, c, a).cpus| == |s.cpus| && KeepsState(s, Do(s, c, a), c, a)
  {
    hide Advance, State.Shape;
    CurThere(s, c);
  }

  lemma PlainState(s: State, c: nat, a: Action)
    requires Enabled(s, c, a) && !TakesFromList(a) && !Locks(a) && !a.Switch? && !a.ReturnFromInterrupt?
    requires !(a.Step? && s.Thr(c).phase.Go?)
    ensures |Do(s, c, a).cpus| == |s.cpus| && KeepsState(s, Do(s, c, a), c, a)
  {
    hide Advance, State.Shape;
    CurThere(s, c);
  }

  lemma DoState(s: State, c: nat, a: Action)
    requires Inv(s) && Enabled(s, c, a)
    ensures |Do(s, c, a).cpus| == |s.cpus| && KeepsState(s, Do(s, c, a), c, a)
  {
    hide Inv, Advance, EndsListed, KeepsState, LocksOk, ListsOk;
    InvParts(s);
    EndsKnown(s, s.Cur(c));
    if TakesFromList(a) { ListState(s, c, a); }
    else if a.Step? && s.Thr(c).phase.Go? { AdvanceState(s, c); }
    else if Locks(a) { LockState(s, c, a); }
    else if a.Switch? || a.ReturnFromInterrupt? { SwitchState(s, c, a); }
    else { PlainState(s, c, a); }
  }

  /** What is true of the current thread of processor c, given whether c has stored S_RUN yet. */
  ghost predicate StateKnown(s: State, c: nat, switched: bool)
  {
    && c < |s.cpus| && s.cpus[c].cur in s.threads && s.cpus[c].cur in s.place
    && (Executing(s, c) ==> (s.Thr(c).state.Run? <==> switched))
  }

  lemma StateStep(s: State, d: nat, a: Action, c: nat, switched: bool)
    requires Inv(s) && Enabled(s, d, a) && StateKnown(s, c, switched)
    ensures StateKnown(Do(s, d, a), c, switched || (d == c && StoresRun(s, c, a)))
  {
    hide Inv, Enabled, Do, EndsListed;
    DoKeeps(s, d, a);
    StepShape(s, d, a);
    if c == d {
      DoState(s, c, a);
    } else {
      OneStack(s, c, d);
      InvParts(s);
      EndsKnown(s, s.Cur(c));
      if s.List(RunQueue(d)) != [] { NextKnown(s, d); }
      DoOther(s, d, a, s.Cur(c));
    }
  }

  lemma StepShape(s: State, d: nat, a: Action)
    requires Inv(s) && Enabled(s, d, a)
    ensures s.Shape() && d < |s.cpus| && Do(s, d, a).Shape() && |Do(s, d, a).cpus| == |s.cpus|
    ensures forall c :: 0 <= c < |s.cpus| && c != d ==> Do(s, d, a).Cur(c) == s.Cur(c)
  {
    DoKeeps(s, d, a);
    assert Do(s, d, a).Shape() by { InvParts(Do(s, d, a)); }
    hide Inv;
    CpusKept(s, d, a);
  }

  lemma CpusKept(s: State, d: nat, a: Action)
    requires Enabled(s, d, a)
    ensures |Do(s, d, a).cpus| == |s.cpus|
    ensures forall c :: 0 <= c < |s.cpus| && c != d ==> Do(s, d, a).Cur(c) == s.Cur(c)
  {
    hide Advance, State.Shape;
    CurThere(s, d);
    if a.Step? && s.Thr(d).phase.Go? { CpusAdvance(s, d); }
  }

  lemma CpusAdvance(s: State, d: nat)
    requires Enabled(s, d, Step) && s.Thr(d).phase.Go?
    ensures |Advance(s, d).cpus| == |s.cpus|
    ensures forall c :: 0 <= c < |s.cpus| && c != d ==> Advance(s, d).Cur(c) == s.Cur(c)
  {
    hide State.Shape;
    CurThere(s, d);
    if MovesOthers(s.Thr(d).at) { CpusMoves(s, d); } else { CpusStay(s, d); }
  }

  lemma CpusMoves(s: State, d: nat)
    requires Enabled(s, d, Step) && s.Thr(d).phase.Go? && MovesOthers(s.Thr(d).at)
    ensures Advance(s, d).cpus == s.cpus[d := Advance(s, d).cpus[d]]
  {
    hide State.Shape;
  }

  lemma CpusStay(s: State, d: nat)
    requires Enabled(s, d, Step) && s.Thr(d).phase.Go? && !MovesOthers(s.Thr(d).at)
    ensures Advance(s, d).cpus == s.cpus[d := Advance(s, d).cpus[d]]
  {
    hide State.Shape;
  }

  /**
   A thread that is executing has state S_RUN exactly if its processor has come out of a context
   switch: what it ran from boot until then is the one exception.
   */
  lemma {:induction false} RunningState(states: seq<State>, moves: seq<(nat, Action)>, i: nat, c: nat)
    requires IsRun(states, moves) && i < |states| && c < |states[0].cpus|
    ensures StateKnown(states[i], c, HasSwitched(states, moves, i, c))
    decreases i
  {
    hide Inv, Enabled, Do, StateKnown, StoresRun;
    if i == 0 {
      BootState(states[0], c);
    } else {
      RunningState(states, moves, i - 1, c);
      RunsKeep(states, moves, i - 1);
      StateStep(states[i - 1], moves[i - 1].0, moves[i - 1].1, c, HasSwitched(states, moves, i - 1, c));
    }
  }

  lemma BootState(s: State, c: nat)
    requires Booted(s) && c < |s.cpus|
    ensures StateKnown(s, c, false) && Executing(s, c) && !s.Thr(c).state.Run?
  {}

  /** A machine of one processor, just booted: its thread executes and is not in state S_RUN. */
  lemma BootReady() returns (s: State)
    ensures IsRun([s], []) && |s.cpus| == 1 && s.cpus[0].cur in s.threads && s.cpus[0].cur in s.place
    ensures Executing(s, 0) && s.Thr(0).state == Ready
  {
    s := State([Cpu(0, 0, false, false)], map[0 := Thread(0, Ready, 1, 1, NoInterrupt, Work, Go)],
               map[], map[], map[0 := Nowhere], {});
  }

  // ---- From switch to return ----

  /** Control is inside thread_switch, or on the way out of a new thread's start, with k as the level to return at. */
  predicate SavedIn(at: Point, k: int)
  {
    match at
    case Enqueue(_, saved) => saved == k
    case Unguard(_, saved) => saved == k
    case StoreState(_, saved) => saved == k
    case Pick(saved) => saved == k
    case Idling(saved) => saved == k
    case Resumed(saved) => saved == k
    case Exorcising(saved) => saved == k
    case Restoring(saved) => saved == k
    case _ => false
  }

  /** The thread has not come back from the switch it made at level k in frame f. */
  predicate Switching(t: Thread, k: int, f: Frame)
  {
    if t.frame.FromIdle? then f.NoInterrupt? && t.frame.saved == k else t.frame == f && SavedIn(t.at, k)
  }

  /** A processor is running u, which is on no list and outside the scheduler. */
  ghost predicate IsBack(s: State, u: Tid)
  {
    && u in s.threads && u in s.place && (exists c :: 0 <= c < |s.cpus| && s.cpus[c].cur == u)
    && s.place[u] == Nowhere && s.threads[u].at.Work? && s.threads[u].phase.Go?
  }

  /** A step of another processor changes at most a thread's processor and state. */
  ghost predicate SameControl(s: State, s': State, u: Tid)
    requires u in s.threads
  {
    u in s'.threads ==>
      s'.threads[u] == s.threads[u].(cpu := s'.threads[u].cpu, state := s'.threads[u].state)
  }

  lemma ControlAdvance(s: State, d: nat, u: Tid)
    requires Enabled(s, d, Step) && s.Thr(d).phase.Go? && u in s.threads && u != s.Cur(d)
    ensures SameControl(s, Advance(s, d), u)
  {
    hide State.Shape;
    CurThere(s, d);
    if MovesOthers(s.Thr(d).at) { ControlMoves(s, d, u); } else { ControlStays(s, d, u); }
  }

  lemma ControlMoves(s: State, d: nat, u: Tid)
    requires Enabled(s, d, Step) && s.Thr(d).phase.Go? && u in s.threads && u != s.Cur(d) && MovesOthers(s.Thr(d).at)
    ensures SameControl(s, Advance(s, d), u)
  {
    hide State.Shape;
  }

  lemma ControlStays(s: State, d: nat, u: Tid)
    requires Enabled(s, d, Step) && s.Thr(d).phase.Go? && u in s.threads && u != s.Cur(d) && !MovesOthers(s.Thr(d).at)
    ensures SameControl(s, Advance(s, d), u)
  {
    hide State.Shape;
  }

  lemma ControlOther(s: State, d: nat, a: Action, u: Tid)
    requires Enabled(s, d, a) && u in s.threads && u != s.Cur(d)
    ensures SameControl(s, Do(s, d, a), u)
  {
    hide State.Shape, Advance, SameControl;
    CurThere(s, d);
    if a.Step? && s.Thr(d).phase.Go? {
      DoAdvances(s, d);
      ControlAdvance(s, d, u);
    } else {
      ControlPlain(s, d, a, u);
    }
  }

  lemma ControlPlain(s: State, d: nat, a: Action, u: Tid)
    requires Enabled(s, d, a) && u in s.threads && u != s.Cur(d) && !(a.Step? && s.Thr(d).phase.Go?)
    ensures SameControl(s, Do(s, d, a), u)
  {
    hide State.Shape, Advance;
  }

  /** What a step of u itself leads to: it is still switching, or it is back at the level and in the frame it had. */
  ghost predicate StillOrBack(s: State, c: nat, u: Tid, k: int, f: Frame)
  {
    u in s.threads && u in s.place &&
    var t := s.threads[u];
    || Switching(t, k, f)
    || (&& c < |s.cpus| && s.cpus[c].cur == u && s.place[u] == Nowhere
        && t.at.Work? && t.phase.Go? && t.curspl == k && t.frame == f)
  }

  /** In thread_switch, where control goes on without a choice. */
  lemma SwitchAdvance(s: State, c: nat, k: int, f: Frame)
    requires Enabled(s, c, Step) && s.Thr(c).phase.Go? && !s.Thr(c).frame.FromIdle? && Switching(s.Thr(c), k, f)
    requires PlaceAt(s.Thr(c), s.place[s.Cur(c)]) && !s.Thr(c).at.Pick? && !s.Thr(c).at.Exorcising?
    ensures StillOrBack(Advance(s, c), c, s.Cur(c), k, f)
  {
    hide State.Shape;
    CurThere(s, c);
  }

  lemma SwitchPick(s: State, c: nat, k: int, f: Frame)
    requires Enabled(s, c, Step) && s.Thr(c).phase.Go? && !s.Thr(c).frame.FromIdle? && Switching(s.Thr(c), k, f)
    requires s.Thr(c).at.Pick?
    ensures StillOrBack(Advance(s, c), c, s.Cur(c), k, f)
  {
    CurThere(s, c);
  }

  lemma SwitchExorcise(s: State, c: nat, k: int, f: Frame)
    requires Enabled(s, c, Step) && s.Thr(c).phase.Go? && !s.Thr(c).frame.FromIdle? && Switching(s.Thr(c), k, f)
    requires s.Thr(c).at.Exorcising? && s.place[s.Cur(c)] == Nowhere && EndsListed(s, s.Cur(c))
    ensures StillOrBack(Advance(s, c), c, s.Cur(c), k, f)
  {
    hide EndsListed;
    CurThere(s, c);
    if s.List(Zombies(c)) != [] { EndListed(s, s.Cur(c), Zombies(c)); }
  }

  /** A handler that interrupted the idle loop keeps its frame. */
  lemma HandlerAdvance(s: State, c: nat, k: int, f: Frame)
    requires Enabled(s, c, Step) && s.Thr(c).phase.Go? && s.Thr(c).frame.FromIdle? && Switching(s.Thr(c), k, f)
    requires LevelOk(s.Thr(c))
    ensures StillOrBack(Advance(s, c), c, s.Cur(c), k, f)
  {
    hide State.Shape;
    CurThere(s, c);
  }

  lemma SwitchPlain(s: State, c: nat, a: Action, k: int, f: Frame)
    requires Enabled(s, c, a) && !(a.Step? && s.Thr(c).phase.Go?) && Switching(s.Thr(c), k, f)
    requires LevelOk(s.Thr(c)) && (s.Thr(c).frame.FromIdle? ==> s.cpus[c].idle && !s.cpus[c].irqOn)
    ensures StillOrBack(Do(s, c, a), c, s.Cur(c), k, f)
  {
    hide State.Shape, Advance;
    CurThere(s, c);
  }

  lemma SwitchSelf(s: State, c: nat, a: Action, k: int, f: Frame)
    requires Inv(s) && Enabled(s, c, a) && Switching(s.Thr(c), k, f)
    ensures StillOrBack(Do(s, c, a), c, s.Cur(c), k, f)
  {
    hide Inv, Advance, Do, StillOrBack, Switching, HandOk, HeldOk, ListsOk, LocksOk, EndsListed;
    Knows(s, c);
    InvParts(s);
    EndsKnown(s, s.Cur(c));
    var t := s.Thr(c);
    if !(a.Step? && t.phase.Go?) {
      SwitchPlain(s, c, a, k, f);
    } else {
      DoAdvances(s, c);
      if t.frame.FromIdle? { HandlerAdvance(s, c, k, f); }
      else if t.at.Pick? { SwitchPick(s, c, k, f); }
      else if t.at.Exorcising? { SwitchExorcise(s, c, k, f); }
      else { SwitchAdvance(s, c, k, f); }
    }
  }

  lemma SwitchStep(s: State, d: nat, a: Action, u: Tid, k: int, f: Frame)
    requires Inv(s) && Enabled(s, d, a) && u in s.threads && Switching(s.threads[u], k, f)
    requires u in Do(s, d, a).threads
    ensures var s' := Do(s, d, a);
      Switching(s'.threads[u], k, f) || (IsBack(s', u) && s'.threads[u].curspl == k && s'.threads[u].frame == f)
  {
    hide Inv, Do, Enabled, Switching;
    StepShape(s, d, a);
    if u == s.Cur(d) {
      SwitchSelf(s, d, a, k, f);
    } else {
      ControlOther(s, d, a, u);
      SwitchIgnores(s.threads[u], Do(s, d, a).threads[u], k, f);
    }
  }

  lemma SwitchIgnores(t: Thread, t': Thread, k: int, f: Frame)
    requires Switching(t, k, f) && t' == t.(cpu := t'.cpu, state := t'.state)
    ensures Switching(t', k, f)
  {}

  /** From state i on until j thread u exists, and it is not back before j. */
  ghost predicate Away(states: seq<State>, i: nat, j: nat, u: Tid)
  {
    && i < j < |states|
    && (forall m :: i < m <= j ==> u in states[m].threads)
    && (forall m :: i < m < j ==> !IsBack(states[m], u))
  }

  lemma {:induction false} SwitchTracks(states: seq<State>, moves: seq<(nat, Action)>, i: nat, j: nat, u: Tid, k: int,
                                        f: Frame)
    requires IsRun(states, moves) && Away(states, i, j, u) && Switching(states[i + 1].threads[u], k, f)
    ensures Switching(states[j].threads[u], k, f)
            || (IsBack(states[j], u) && states[j].threads[u].curspl == k && states[j].threads[u].frame == f)
    decreases j
  {
    hide Inv, Do, Enabled, Switching, IsBack;
    if j == i + 1 {
    } else {
      SwitchTracks(states, moves, i, j - 1, u, k, f);
      RunsKeep(states, moves, j - 1);
      RunStep(states, moves, j - 1);
      SwitchStep(states[j - 1], moves[j - 1].0, moves[j - 1].1, u, k, f);
    }
  }

  /** A thread that is back is not switching. */
  lemma BackIsOut(s: State, u: Tid, k: int, f: Frame)
    requires Inv(s) && IsBack(s, u)
    ensures !Switching(s.threads[u], k, f)
  {
    hide Inv, LevelOk, HeldOk, HandOk;
    var c :| 0 <= c < |s.cpus| && s.cpus[c].cur == u;
    Knows(s, c);
  }

  /**
   thread_switch returns at the level and in the frame it was called at: the first time that a thread
   which called it is running again, outside the scheduler, whatever processor it is on by then.
   */
  lemma SwitchReturns(states: seq<State>, moves: seq<(nat, Action)>, i: nat, j: nat, u: Tid)
    requires IsRun(states, moves) && i < |moves| && Away(states, i, j, u) && IsBack(states[j], u)
    requires moves[i].1.Switch? && moves[i].0 < |states[i].cpus| && states[i].cpus[moves[i].0].cur == u
    requires u in states[i].threads && u in states[i].place && states[i].place[u] == Nowhere
    ensures states[j].threads[u].curspl == states[i].threads[u].curspl
    ensures states[j].threads[u].frame == states[i].threads[u].frame
  {
    hide Inv, Do, Enabled, Switching, IsBack;
    var k, f := states[i].threads[u].curspl, states[i].threads[u].frame;
    RunsKeep(states, moves, i);
    SwitchStarts(states[i], moves[i].0, moves[i].1);
    SwitchTracks(states, moves, i, j, u, k, f);
    RunsKeep(states, moves, j);
    BackIsOut(states[j], u, k, f);
  }

  lemma SwitchStarts(s: State, c: nat, a: Action)
    requires Inv(s) && Enabled(s, c, a) && a.Switch? && s.place[s.Cur(c)] == Nowhere
    ensures s.Cur(c) in Do(s, c, a).threads
    ensures Switching(Do(s, c, a).threads[s.Cur(c)], s.Thr(c).curspl, s.Thr(c).frame)
  {
    hide Inv, Advance, HandOk, LevelOk, HeldOk, PlaceOk;
    Knows(s, c);
    hide State.Shape;
  }

  /** In a handler that interrupted the idle loop a switch does nothing. */
  lemma SwitchIdle(states: seq<State>, moves: seq<(nat, Action)>, i: nat, u: Tid)
    requires IsRun(states, moves) && i < |moves| && moves[i].1.Switch?
    requires moves[i].0 < |states[i].cpus| && states[i].cpus[moves[i].0].cur == u
    requires u in states[i].threads && u in states[i].place && states[i].place[u] != Nowhere
    ensures states[i + 1] == states[i]
  {
    hide Inv, Advance, HandOk, HeldOk, PlaceOk;
    RunsKeep(states, moves, i);
    var s, c := states[i], moves[i].0;
    assert Enabled(s, c, moves[i].1) && states[i + 1] == Do(s, c, moves[i].1);
    hide IsRun;
    Knows(s, c);
    assert s.threads[u := s.threads[u]] == s.threads && s.cpus[c := s.cpus[c]] == s.cpus;
  }

  /** A new thread starts with interrupts on and in no handler. */
  lemma ForkStarts(states: seq<State>, moves: seq<(nat, Action)>, i: nat, j: nat, u: Tid)
    requires IsRun(states, moves) && i < |moves| && Away(states, i, j, u) && IsBack(states[j], u)
    requires moves[i].1.Fork? && moves[i].1.t == u
    ensures states[j].threads[u].curspl == 0 && states[j].threads[u].frame == NoInterrupt
  {
    hide Inv, Do, Enabled, Switching, IsBack;
    ForkedAway(states[i], moves[i].0, moves[i].1);
    SwitchTracks(states, moves, i, j, u, 0, NoInterrupt);
    RunsKeep(states, moves, j);
    BackIsOut(states[j], u, 0, NoInterrupt);
  }

  lemma ForkedAway(s: State, c: nat, a: Action)
    requires Enabled(s, c, a) && a.Fork?
    ensures a.t in Do(s, c, a).threads && Switching(Do(s, c, a).threads[a.t], 0, NoInterrupt)
  {}

  /** Thread u is in a handler that interrupted it outside the scheduler, or has just left it as it was before. */
  ghost predicate HandlingOrBack(s: State, u: Tid)
  {
    u in s.threads &&
    var t := s.threads[u];
    t.frame.FromWork? || (t.frame.NoInterrupt? && t.at.Work? && t.phase.Go? && t.curspl == 0 && t.ipl == 0)
  }

  lemma HandlerSelf(s: State, c: nat, a: Action)
    requires Inv(s) && Enabled(s, c, a) && s.Thr(c).frame.FromWork? && s.Cur(c) in Do(s, c, a).threads
    ensures HandlingOrBack(Do(s, c, a), s.Cur(c))
  {
    hide Inv, Advance, HandOk, HeldOk, PlaceOk, PlaceAt;
    Knows(s, c);
    if a.Step? && s.Thr(c).phase.Go? {
      hide Do, HandlingOrBack, LevelOk;
      DoAdvances(s, c);
      FrameAdvance(s, c);
      FrameKept(Advance(s, c), s.Cur(c));
    } else {
      HandlerLeaves(s, c, a);
    }
  }

  lemma FrameKept(s: State, u: Tid)
    requires u in s.threads && s.threads[u].frame.FromWork?
    ensures HandlingOrBack(s, u)
  {}

  /** Leaving a handler, or doing something else in it. */
  lemma HandlerLeaves(s: State, c: nat, a: Action)
    requires Enabled(s, c, a) && s.Thr(c).frame.FromWork? && !(a.Step? && s.Thr(c).phase.Go?) && LevelOk(s.Thr(c))
    requires s.Thr(c).ipl == s.Thr(c).curspl + s.cpus[c].spinlocks + (if s.Thr(c).phase.Dropping? then 1 else 0)
    requires s.cpus[c].irqOn <==> s.Thr(c).ipl == 0
    requires s.cpus[c].spinlocks >= 0
    ensures HandlingOrBack(Do(s, c, a), s.Cur(c))
  {
    hide State.Shape, Advance;
    CurThere(s, c);
  }

  /** Where the code has no choice, the running thread's frame does not change. */
  lemma FrameAdvance(s: State, c: nat)
    requires Enabled(s, c, Step) && s.Thr(c).phase.Go?
    ensures s.Cur(c) in Advance(s, c).threads ==> Advance(s, c).threads[s.Cur(c)].frame == s.Thr(c).frame
  {
    CurThere(s, c);
    hide State.Shape;
    if MovesOthers(s.Thr(c).at) { FrameMoves(s, c); } else { FrameStays(s, c); }
  }

  lemma FrameMoves(s: State, c: nat)
    requires Enabled(s, c, Step) && s.Thr(c).phase.Go? && MovesOthers(s.Thr(c).at)
    ensures s.Cur(c) in Advance(s, c).threads ==> Advance(s, c).threads[s.Cur(c)].frame == s.Thr(c).frame
  {
    hide State.Shape;
    CurThere(s, c);
  }

  lemma FrameStays(s: State, c: nat)
    requires Enabled(s, c, Step) && s.Thr(c).phase.Go? && !MovesOthers(s.Thr(c).at)
    ensures s.Cur(c) in Advance(s, c).threads ==> Advance(s, c).threads[s.Cur(c)].frame == s.Thr(c).frame
  {
    hide State.Shape;
    CurThere(s, c);
  }

  lemma HandlerStep(s: State, d: nat, a: Action, u: Tid)
    requires Inv(s) && Enabled(s, d, a) && u in s.threads && s.threads[u].frame.FromWork? && u in Do(s, d, a).threads
    ensures HandlingOrBack(Do(s, d, a), u)
  {
    hide Inv, Do, Enabled;
    StepShape(s, d, a);
    if u == s.Cur(d) { HandlerSelf(s, d, a); } else { ControlOther(s, d, a, u); }
  }

  /** From state i on until j thread u exists, and it has not left the handler before j. */
  ghost predicate Handling(states: seq<State>, i: nat, j: nat, u: Tid)
  {
    && i < j < |states|
    && (forall m :: i < m <= j ==> u in states[m].threads)
    && (forall m :: i < m < j ==> states[m].threads[u].frame.FromWork?)
  }

  /**
   A handler that interrupted a thread returns to it as it was: outside the scheduler, with interrupts
   on, although the thread may have been switched out and moved to another processor meanwhile.
   */
  lemma InterruptReturns(states: seq<State>, moves: seq<(nat, Action)>, i: nat, j: nat, u: Tid)
    requires IsRun(states, moves) && i < |moves| && moves[i].1.Interrupt? && Handling(states, i, j, u)
    requires moves[i].0 < |states[i].cpus| && states[i].cpus[moves[i].0].cur == u && u in states[i].threads
    requires states[i].threads[u].at.Work? && !states[j].threads[u].frame.FromWork?
    ensures var t, t' := states[i].threads[u], states[j].threads[u];
      && t'.frame == t.frame == NoInterrupt && t'.at == t.at == Work && t'.phase == t.phase == Go
      && t'.curspl == t.curspl == 0 && t'.ipl == t.ipl == 0
  {
    hide Inv, Do, Enabled;
    RunsKeep(states, moves, i);
    RunStep(states, moves, i);
    InterruptStarts(states[i], moves[i].0, moves[i].1);
    if j > i + 1 {
      RunsKeep(states, moves, j - 1);
      RunStep(states, moves, j - 1);
      HandlerStep(states[j - 1], moves[j - 1].0, moves[j - 1].1, u);
    }
  }

  lemma InterruptStarts(s: State, c: nat, a: Action)
    requires Inv(s) && Enabled(s, c, a) && a.Interrupt? && s.Thr(c).at.Work?
    ensures s.Thr(c).frame == NoInterrupt && s.Thr(c).phase == Go && s.Thr(c).curspl == 0 && s.Thr(c).ipl == 0
    ensures s.Cur(c) in Do(s, c, a).threads && Do(s, c, a).threads[s.Cur(c)].frame.FromWork?
  {
    hide Inv, Advance, HandOk, HeldOk, PlaceOk, PlaceAt;
    Knows(s, c);
    hide State.Shape;
  }

  /** splx, splhigh and spl0 set the level they are given. */
  lemma LevelSets(states: seq<State>, moves: seq<(nat, Action)>, i: nat)
    requires IsRun(states, moves) && i < |moves| && moves[i].1.Level?
    ensures moves[i].0 < |states[i + 1].cpus| && states[i + 1].cpus[moves[i].0].cur in states[i + 1].threads
    ensures states[i + 1].Thr(moves[i].0).curspl == moves[i].1.spl
  {
    assert Enabled(states[i], moves[i].0, moves[i].1);
    hide IsRun, Advance, State.Shape;
    CurThere(states[i], moves[i].0);
  }

  /** A processor does not idle with work on its run queue unless an interrupt is on its way. */
  lemma IdleCovered(states: seq<State>, moves: seq<(nat, Action)>, i: nat, c: nat)
    requires IsRun(states, moves) && i < |states| && c < |states[i].cpus|
    ensures states[i].Shape()
    ensures states[i].Thr(c).at.Idling? && states[i].List(RunQueue(c)) != [] ==> c in states[i].unidle
  {
    hide Inv, IsRun, HandOk, View, PlaceOk;
    RunsKeep(states, moves, i);
    Knows(states[i], c);
  }

  lemma SpinlockExclusion(states: seq<State>, moves: seq<(nat, Action)>, i: nat, l: LockName, c: nat, d: nat)
    requires IsRun(states, moves) && i < |states| && c < |states[i].cpus| && d < |states[i].cpus|
    ensures states[i].Shape()
    ensures Inside(states[i], c, l) && Inside(states[i], d, l) ==> c == d
    ensures Inside(states[i], c, l) ==> states[i].LockOf(l).word
  {
    hide Inv, IsRun, ListsOk;
    RunsKeep(states, moves, i);
    InvParts(states[i]);
    assert FlightOk(states[i], c) && FlightOk(states[i], d);
  }

  /** A processor that spins on a set word waits for another one: no word is left set. */
  lemma SpinnerWaits(states: seq<State>, moves: seq<(nat, Action)>, i: nat, c: nat)
    requires IsRun(states, moves) && i < |states| && c < |states[i].cpus|
    ensures states[i].Shape()
    ensures var f := states[i].Thr(c).phase;
      f.Spinning? && states[i].LockOf(f.l).word ==>
        exists d :: 0 <= d < |states[i].cpus| && d != c && Inside(states[i], d, f.l)
  {
    hide Inv, IsRun, ListsOk, FlightOk, HandOk, LevelOk, HeldAt, PlaceAt, PlaceOk;
    RunsKeep(states, moves, i);
    var s := states[i];
    InvParts(s);
    Knows(s, c);
    var f := s.Thr(c).phase;
    if f.Spinning? && s.LockOf(f.l).word {
      var d :| 0 <= d < |s.cpus| && Inside(s, d, f.l);
      assert d != c;
    }
  }

  /** What processor c can always do next, but for waiting at a lock. */
  function Next(s: State, c: nat): (a: Action)
    requires s.Shape() && c < |s.cpus|
  {
    if !s.Thr(c).phase.Go? then Step
    else match s.Thr(c).at
      case Work => Level(1)
      case Idling(_) => Interrupt(false)
      case Taking => TakeDone
      case Sending => ReturnLeftovers
      case Giving(_) => GiveDone
      case _ => Step
  }

  lemma NeverStuck(states: seq<State>, moves: seq<(nat, Action)>, i: nat, c: nat)
    requires IsRun(states, moves) && i < |states| && c < |states[i].cpus|
    ensures states[i].Shape()
    ensures Enabled(states[i], c, Next(states[i], c))
            || (states[i].Thr(c).phase.Spinning? && states[i].LockOf(states[i].Thr(c).phase.l).word)
  {
    hide Inv, IsRun, View, PlaceOk, Parked, PlaceAt;
    RunsKeep(states, moves, i);
    var s := states[i];
    Knows(s, c);
    if s.Thr(c).phase.Go? && s.Thr(c).at.Placing? { KnowsThread(s, s.List(Hand(c))[0]); }
  }

  // ---- The assertions in the code ----

  datatype Lock = NoLock | ALock(l: LockName)

  /** The lock a step sets out to acquire. */
  function Locking(s: State, c: nat, a: Action): (l: Lock)
    requires Enabled(s, c, a)
  {
    match a
    case Acquire(l) => ALock(l)
    case Count(d) => ALock(QueueLock(d))
    case TakeVictims => ALock(QueueLock(c))
    case SendTo(d) => ALock(QueueLock(d))
    case ReturnLeftovers => if s.List(Hand(c)) == [] then NoLock else ALock(QueueLock(c))
    case Switch(goal) => if s.cpus[c].idle then NoLock else ALock(QueueLock(c))
    case ReturnFromInterrupt => if s.Thr(c).frame.FromIdle? then ALock(QueueLock(c)) else NoLock
    case Step =>
      if s.Thr(c).phase.Go? && s.Thr(c).at.Waking? && s.List(Hand(c)) != []
      then ALock(QueueLock(s.threads[s.List(Hand(c))[0]].cpu)) else NoLock
    case _ => NoLock
  }

  /** The lock a step sets out to release. */
  function Unlocking(s: State, c: nat, a: Action): (l: Lock)
    requires Enabled(s, c, a)
  {
    match a
    case Release(l) => ALock(l)
    case TakeDone => ALock(QueueLock(c))
    case GiveDone => ALock(QueueLock(s.Thr(c).at.d))
    case Step =>
      if !s.Thr(c).phase.Go? then NoLock
      else (match s.Thr(c).at
            case Placed(d) => ALock(QueueLock(d))
            case Peek(d) => ALock(QueueLock(d))
            case Returning => if s.List(Hand(c)) == [] then ALock(QueueLock(c)) else NoLock
            case Enqueue(goal, _) => if goal.ToReady? && s.List(RunQueue(c)) == [] then ALock(QueueLock(c)) else NoLock
            case Unguard(w, _) => ALock(ChannelLock(w))
            case Pick(_) => if s.List(RunQueue(c)) == [] then ALock(QueueLock(c)) else NoLock
            case Resumed(_) => ALock(QueueLock(c))
            case _ => NoLock)
    case _ => NoLock
  }

  /** Where in a spinlock operation thread u is. */
  function PhaseOf(s: State, u: Tid): (f: Phase) { if u in s.threads then s.threads[u].phase else Go }

  /** A step of c sets out to acquire or release only these locks. */
  ghost predicate Begins(s: State, s': State, c: nat, acquired: Lock, released: Lock)
    requires c < |s.cpus|
  {
    var f := PhaseOf(s', s.cpus[c].cur);
    (f.Spinning? ==> acquired == ALock(f.l)) && (f.Dropping? ==> released == ALock(f.l))
  }

  lemma BeginsPlain(s: State, c: nat, a: Action)
    requires Enabled(s, c, a) && !(a.Step? && s.Thr(c).phase.Go?)
    ensures Begins(s, Do(s, c, a), c, Locking(s, c, a), Unlocking(s, c, a))
  {
    hide State.Shape, Advance;
    CurThere(s, c);
  }

  lemma BeginsMoves(s: State, c: nat)
    requires Enabled(s, c, Step) && s.Thr(c).phase.Go? && MovesOthers(s.Thr(c).at)
    ensures Begins(s, Advance(s, c), c, Locking(s, c, Step), Unlocking(s, c, Step))
  {
    hide State.Shape;
    CurThere(s, c);
  }

  lemma BeginsStays(s: State, c: nat)
    requires Enabled(s, c, Step) && s.Thr(c).phase.Go? && !MovesOthers(s.Thr(c).at)
    ensures Begins(s, Advance(s, c), c, Locking(s, c, Step), Unlocking(s, c, Step))
  {
    hide State.Shape;
    CurThere(s, c);
  }

  lemma StepBegins(s: State, c: nat, a: Action)
    requires Enabled(s, c, a)
    ensures Begins(s, Do(s, c, a), c, Locking(s, c, a), Unlocking(s, c, a))
  {
    hide State.Shape, Do, Advance, Begins, Locking, Unlocking;
    CurThere(s, c);
    if !(a.Step? && s.Thr(c).phase.Go?) {
      BeginsPlain(s, c, a);
    } else {
      DoAdvances(s, c);
      if MovesOthers(s.Thr(c).at) { BeginsMoves(s, c); } else { BeginsStays(s, c); }
    }
  }

  /** No step panics or fails an assertion of the code. */
  ghost predicate AssertionsHold(s: State, c: nat, a: Action)
    requires Enabled(s, c, a)
  {
    var t, p := s.Thr(c), s.cpus[c];
    var go, f := a.Step? && t.phase.Go?, PhaseOf(Do(s, c, a), p.cur);
    // spinlock_acquire does not find itself holding the lock
    && (f.Spinning? ==> s.LockOf(f.l).holder != By(c))
    // spinlock_release
    && (f.Dropping? ==> s.LockOf(f.l).holder == By(c) && p.spinlocks > 0)
    // an interrupt taken outside the idle loop finds level and count zero, and its handler leaves one and one
    && (a.Interrupt? && t.at.Work? ==> t.curspl == 0 && t.ipl == 0)
    && (a.ReturnFromInterrupt? && t.frame.FromWork? ==> t.curspl == 1 && t.ipl == 1)
    // thread_switch runs on the thread's own processor
    && (a.Switch? ==> t.cpu == c)
    // make_runnable on the current thread is called with its run queue locked
    && (go && t.at.Enqueue? && t.at.goal.ToReady? ==> s.LockOf(QueueLock(t.cpu)).holder == By(c))
    // exorcise destroys zombies only, and not the current thread of any processor
    && (go && t.at.Exorcising? && s.List(Zombies(c)) != [] ==>
          s.threads[s.List(Zombies(c))[0]].state == Zombie
          && forall d :: 0 <= d < |s.cpus| ==> s.Cur(d) != s.List(Zombies(c))[0])
  }

  lemma NoPanic(states: seq<State>, moves: seq<(nat, Action)>, i: nat)
    requires IsRun(states, moves) && i < |moves|
    ensures AssertionsHold(states[i], moves[i].0, moves[i].1)
  {
    hide Inv, Do, Advance;
    RunsKeep(states, moves, i);
    Asserted(states[i], moves[i].0, moves[i].1);
  }

  lemma Asserted(s: State, c: nat, a: Action)
    requires Inv(s) && Enabled(s, c, a)
    ensures AssertionsHold(s, c, a)
  {
    hide Inv, HandOk, PlaceAt, PlaceOk, Do, Advance;
    Knows(s, c);
    StepBegins(s, c, a);
    if Unlocking(s, c, a).ALock? {
      var l := Unlocking(s, c, a).l;
      assert l in s.HeldBy(c);
      assert s.HeldBy(c) != {};
    }
    if a.Step? && s.Thr(c).phase.Go? && s.Thr(c).at.Exorcising? && s.List(Zombies(c)) != [] { ZombieKnown(s, c); }
  }

  // ---- Lists are touched only under their locks ----

  /** Who may change a list: the holder of its lock, or the processor it belongs to. */
  predicate Guards(s: State, c: nat, n: ListName)
  {
    match n
    case RunQueue(d) => s.LockOf(QueueLock(d)).holder == By(c)
    case Waiters(w) => s.LockOf(ChannelLock(w)).holder == By(c)
    case Zombies(d) => d == c
    case Hand(d) => d == c
  }

  lemma ListsGuarded(states: seq<State>, moves: seq<(nat, Action)>, i: nat, n: ListName)
    requires IsRun(states, moves) && i < |moves|
    requires states[i + 1].List(n) != states[i].List(n)
    ensures Guards(states[i], moves[i].0, n)
  {
    RunsKeep(states, moves, i);
    hide Inv;
    Guarded(states[i], moves[i].0, moves[i].1, n);
  }

  lemma Guarded(s: State, c: nat, a: Action, n: ListName)
    requires Inv(s) && Enabled(s, c, a) && Do(s, c, a).List(n) != s.List(n)
    ensures Guards(s, c, n)
  {
    hide Inv, HandOk, PlaceAt, PlaceOk, LevelOk, Advance, Do;
    Knows(s, c);
    if a.Step? && s.Thr(c).phase.Go? { DoAdvances(s, c); AdvanceGuarded(s, c, n); } else { DoTouches(s, c, a, n); }
  }

  lemma DoAdvances(s: State, c: nat)
    requires Enabled(s, c, Step) && s.Thr(c).phase.Go?
    ensures Do(s, c, Step) == Advance(s, c)
  {}

  /** The only lists other actions change. */
  lemma DoTouches(s: State, c: nat, a: Action, n: ListName)
    requires Enabled(s, c, a) && !(a.Step? && s.Thr(c).phase.Go?) && Do(s, c, a).List(n) != s.List(n)
    ensures match a
      case WakeOne(w) => n == Waiters(w) || n == Hand(c)
      case Fork(_, _) => n == Hand(c)
      case TakeOne => n == RunQueue(c) || n == Hand(c)
      case GiveOne => n == RunQueue(s.Thr(c).at.d) || n == Hand(c)
      case _ => false
  {
    hide Advance, State.Shape;
  }

  lemma AdvanceGuarded(s: State, c: nat, n: ListName)
    requires Inv(s) && Enabled(s, c, Step) && s.Thr(c).phase.Go? && Advance(s, c).List(n) != s.List(n)
    ensures Guards(s, c, n)
  {
    hide Inv, Advance;
    HoldsAt(s, c);
    AdvanceTouches(s, c, n);
  }

  /** The locks held at the points where a list is about to change. */
  lemma HoldsAt(s: State, c: nat)
    requires Inv(s) && c < |s.cpus| && s.Thr(c).phase.Go?
    ensures s.Shape()
    ensures match s.Thr(c).at
      case Collecting(w) => Guards(s, c, Waiters(w))
      case Placing(d) => Guards(s, c, RunQueue(d))
      case Returning => Guards(s, c, RunQueue(c))
      case Enqueue(goal, _) => Guards(s, c, RunQueue(c)) && (goal.ToSleep? ==> Guards(s, c, Waiters(goal.w)))
      case Pick(_) => Guards(s, c, RunQueue(c))
      case _ => true
    ensures s.Thr(c).cpu == c
  {
    hide Inv, HandOk, PlaceAt, PlaceOk, LevelOk;
    Knows(s, c);
    match s.Thr(c).at
    case Collecting(w) => assert ChannelLock(w) in s.HeldBy(c);
    case Placing(d) => assert QueueLock(d) in s.HeldBy(c);
    case Returning => assert QueueLock(c) in s.HeldBy(c);
    case Enqueue(goal, _) =>
      assert QueueLock(c) in s.HeldBy(c);
      if goal.ToSleep? { assert ChannelLock(goal.w) in s.HeldBy(c); }
    case Pick(_) => assert QueueLock(c) in s.HeldBy(c);
    case _ =>
  }

  /** The only lists a step of the code changes at each point. */
  lemma AdvanceTouches(s: State, c: nat, n: ListName)
    requires Enabled(s, c, Step) && s.Thr(c).phase.Go? && s.Thr(c).cpu == c && Advance(s, c).List(n) != s.List(n)
    ensures match s.Thr(c).at
      case Collecting(w) => n == Waiters(w) || n == Hand(c)
      case Placing(d) => n == RunQueue(d) || n == Hand(c)
      case Returning => n == RunQueue(c) || n == Hand(c)
      case Enqueue(goal, _) => n == RunQueue(c) || n == Zombies(c) || (goal.ToSleep? && n == Waiters(goal.w))
      case Pick(_) => n == RunQueue(c)
      case Exorcising(_) => n == Zombies(c)
      case _ => false
  {}

  // ---- Waking up ----

  /** Processor c is inside wakeone or wakeall and holds the channel's lock. */
  predicate WakingUp(s: State, c: nat, w: nat)
  {
    && c < |s.cpus| && s.cpus[c].cur in s.threads && s.LockOf(ChannelLock(w)).holder == By(c)
    && var at := s.Thr(c).at;
       at == Collecting(w) || at.Waking? || at.Placing? || at.Placed?
  }

  predicate AtWork(s: State, c: nat) { c < |s.cpus| && s.cpus[c].cur in s.threads && s.Thr(c).at.Work? }

  /** What a step of its own does to the channel and to what is in hand. */
  ghost predicate WakeStep(s: State, s': State, c: nat, w: nat)
    requires WakingUp(s, c, w)
  {
    var q, q', h, h' := s.List(Waiters(w)), s'.List(Waiters(w)), s.List(Hand(c)), s'.List(Hand(c));
    var at, go := s.Thr(c).at, s.Thr(c).phase.Go?;
    && c < |s'.cpus| && s'.cpus[c].cur in s'.threads
    && (if go && at.Collecting? then
          && WakingUp(s', c, w)
          && (if q == [] then q' == [] && h' == h && s'.Thr(c).at == Waking
              else q' == q[1..] && h' == h + [q[0]] && s'.Thr(c).at == at)
        else if go && at.Placing? then
          && WakingUp(s', c, w) && s'.Thr(c).at.Placed?
          && h != [] && q' == q && h' == h[1..] && h[0] in s'.List(RunQueue(at.d))
        else if go && at.Waking? && h == [] then AtWork(s', c) && q' == q && h' == h
        else WakingUp(s', c, w) && q' == q && h' == h && (s'.Thr(c).at.Collecting? <==> at.Collecting?))
  }

  lemma WakeAdvance(s: State, c: nat, w: nat)
    requires Enabled(s, c, Step) && s.Thr(c).phase.Go? && WakingUp(s, c, w)
    ensures WakeStep(s, Advance(s, c), c, w)
  {
    hide State.Shape;
  }

  lemma WakePhase(s: State, c: nat, a: Action, w: nat)
    requires Enabled(s, c, a) && !(a.Step? && s.Thr(c).phase.Go?) && WakingUp(s, c, w)
    requires s.Thr(c).phase.Won? ==> s.LockOf(s.Thr(c).phase.l).holder == NoCpu
    ensures WakeStep(s, Do(s, c, a), c, w)
  {
    hide State.Shape, Advance;
  }

  lemma WakeSelf(s: State, c: nat, a: Action, w: nat)
    requires Inv(s) && Enabled(s, c, a) && WakingUp(s, c, w)
    ensures WakeStep(s, Do(s, c, a), c, w)
  {
    hide Inv, Do, Advance, WakeStep, LocksOk, ListsOk;
    InvParts(s);
    FlightFree(s, c);
    if a.Step? && s.Thr(c).phase.Go? { DoAdvances(s, c); WakeAdvance(s, c, w); } else { WakePhase(s, c, a, w); }
  }

  lemma FlightFree(s: State, c: nat)
    requires s.Shape() && LocksOk(s) && c < |s.cpus|
    ensures s.Thr(c).phase.Won? ==> s.LockOf(s.Thr(c).phase.l).holder == NoCpu
  {
    assert FlightOk(s, c);
  }

  /** A step of another processor leaves the channel, what is in hand, and the waker itself alone. */
  lemma WakeOther(s: State, d: nat, a: Action, c: nat, w: nat)
    requires Inv(s) && Enabled(s, d, a) && WakingUp(s, c, w) && d != c
    ensures var s' := Do(s, d, a);
      && WakingUp(s', c, w) && s'.Thr(c).at == s.Thr(c).at
      && s'.List(Waiters(w)) == s.List(Waiters(w)) && s'.List(Hand(c)) == s.List(Hand(c))
  {
    hide Inv, Do, Enabled;
    var s' := Do(s, d, a);
    DoKeeps(s, d, a);
    StepShape(s, d, a);
    OneStack(s, c, d);
    ControlOther(s, d, a, s.Cur(c));
    CurThere(s', c);
    if s'.List(Waiters(w)) != s.List(Waiters(w)) { Guarded(s, d, a, Waiters(w)); }
    if s'.List(Hand(c)) != s.List(Hand(c)) { Guarded(s, d, a, Hand(c)); }
    HolderKept(s, d, a, ChannelLock(w), c);
  }

  /** Nobody takes a lock from its holder. */
  lemma HolderKept(s: State, d: nat, a: Action, l: LockName, c: nat)
    requires Inv(s) && Enabled(s, d, a) && c != d && s.LockOf(l).holder == By(c)
    ensures Do(s, d, a).LockOf(l).holder == By(c)
  {
    hide Inv, Do, Advance, HandOk, PlaceAt, PlaceOk, LevelOk, ListsOk, LocksOk;
    InvParts(s);
    Knows(s, d);
    FlightFree(s, d);
    assert l !in s.HeldBy(d);
    if a.Step? && s.Thr(d).phase.Go? {
      DoAdvances(s, d);
      HolderAdvance(s, d, l, c);
    } else {
      HolderPlain(s, d, a, l, c);
    }
  }

  lemma HolderAdvance(s: State, d: nat, l: LockName, c: nat)
    requires Enabled(s, d, Step) && s.Thr(d).phase.Go? && s.LockOf(l).holder == By(c) && c != d
    requires HeldAt(s.Thr(d).at, d, s.HeldBy(d)) && l !in s.HeldBy(d)
    ensures Advance(s, d).LockOf(l).holder == By(c)
  {
    hide State.Shape;
    CurThere(s, d);
  }

  lemma HolderPlain(s: State, d: nat, a: Action, l: LockName, c: nat)
    requires Enabled(s, d, a) && !(a.Step? && s.Thr(d).phase.Go?) && s.LockOf(l).holder == By(c) && c != d
    requires s.Thr(d).phase.Go? ==> HeldAt(s.Thr(d).at, d, s.HeldBy(d)) && l !in s.HeldBy(d)
    requires s.Thr(d).phase.Won? ==> s.LockOf(s.Thr(d).phase.l).holder == NoCpu
    ensures Do(s, d, a).LockOf(l).holder == By(c)
  {
    hide State.Shape, Advance;
  }

  // From call to return.

  predicate IsWake(a: Action, w: nat, all: bool) { if all then a == WakeAll(w) else a == WakeOne(w) }

  /** Thread x has been on a run queue after state i, up to state j. */
  ghost predicate Queued(states: seq<State>, i: nat, j: nat, x: Tid)
    requires j < |states|
  {
    exists m, d :: i < m <= j && x in states[m].List(RunQueue(d))
  }

  /** Where a wake-up stands: which threads are still on the channel, and whether x is, or is in hand, or has
      been queued. */
  ghost predicate WakeStands(s: State, c: nat, w: nat, all: bool, was: seq<Tid>, x: Tid, queued: bool)
  {
    && WakingUp(s, c, w)
    && (if all then s.Thr(c).at.Collecting? || s.List(Waiters(w)) == []
        else !s.Thr(c).at.Collecting? && was != [] && s.List(Waiters(w)) == was[1..])
    && (queued || x in s.List(Hand(c)) || (all && x in s.List(Waiters(w))))
  }

  ghost predicate WakeDone(s: State, c: nat, w: nat, all: bool, was: seq<Tid>, queued: bool)
  {
    AtWork(s, c) && queued && was != [] && s.List(Waiters(w)) == if all then [] else was[1..]
  }

  lemma WakeMoves(s: State, d: nat, a: Action, c: nat, w: nat, all: bool, was: seq<Tid>, x: Tid, q: bool, q': bool)
    requires Inv(s) && Enabled(s, d, a) && WakeStands(s, c, w, all, was, x, q) && was != []
    requires q ==> q'
    requires (exists e :: x in Do(s, d, a).List(RunQueue(e))) ==> q'
    ensures WakeStands(Do(s, d, a), c, w, all, was, x, q') || WakeDone(Do(s, d, a), c, w, all, was, q')
  {
    hide Inv, Do, Enabled;
    if d == c { WakeSelf(s, c, a, w); } else { WakeOther(s, d, a, c, w); }
  }

  /** Move i is processor c's wakeone or wakeall, and it has not returned before j. */
  ghost predicate InWake(states: seq<State>, moves: seq<(nat, Action)>, i: nat, j: nat, c: nat, w: nat, all: bool)
  {
    && IsRun(states, moves) && i < j < |states| && moves[i].0 == c && IsWake(moves[i].1, w, all)
    && (forall m :: i < m < j ==> !AtWork(states[m], c))
  }

  lemma {:induction false} WakeTracks(states: seq<State>, moves: seq<(nat, Action)>, i: nat, j: nat, c: nat, w: nat,
                                      all: bool, x: Tid)
    requires InWake(states, moves, i, j, c, w, all) && states[i].List(Waiters(w)) != []
    requires if all then x in states[i].List(Waiters(w)) else x == states[i].List(Waiters(w))[0]
    ensures var was, q := states[i].List(Waiters(w)), Queued(states, i, j, x);
      WakeStands(states[j], c, w, all, was, x, q) || WakeDone(states[j], c, w, all, was, q)
    decreases j
  {
    hide Inv, Do, Enabled, WakeStands, WakeDone;
    RunsKeep(states, moves, j - 1);
    RunStep(states, moves, j - 1);
    var was := states[i].List(Waiters(w));
    if j == i + 1 {
      WakeStarts(states[i], c, moves[i].1, w, all, x, Queued(states, i, j, x));
    } else {
      WakeTracks(states, moves, i, j - 1, c, w, all, x);
      DoneIsBack(states[j - 1], c, w, all, was, Queued(states, i, j - 1, x));
      WakeMoves(states[j - 1], moves[j - 1].0, moves[j - 1].1, c, w, all, was, x,
                Queued(states, i, j - 1, x), Queued(states, i, j, x));
    }
  }

  lemma DoneIsBack(s: State, c: nat, w: nat, all: bool, was: seq<Tid>, q: bool)
    ensures WakeDone(s, c, w, all, was, q) ==> AtWork(s, c)
  {}

  lemma WakeStarts(s: State, c: nat, a: Action, w: nat, all: bool, x: Tid, q: bool)
    requires Enabled(s, c, a) && IsWake(a, w, all) && s.List(Waiters(w)) != []
    requires if all then x in s.List(Waiters(w)) else x == s.List(Waiters(w))[0]
    ensures WakeStands(Do(s, c, a), c, w, all, s.List(Waiters(w)), x, q)
  {
    hide Advance, State.Shape;
    CurThere(s, c);
  }

  /**
   When wakeall returns the channel is empty, and every thread that was on it has been on a run queue;
   when wakeone returns the first thread has, and the others are still on the channel.
   */
  lemma WakeReturns(states: seq<State>, moves: seq<(nat, Action)>, i: nat, j: nat, c: nat, w: nat, all: bool, x: Tid)
    requires InWake(states, moves, i, j, c, w, all) && AtWork(states[j], c) && states[i].List(Waiters(w)) != []
    requires if all then x in states[i].List(Waiters(w)) else x == states[i].List(Waiters(w))[0]
    ensures states[j].List(Waiters(w)) == if all then [] else states[i].List(Waiters(w))[1..]
    ensures Queued(states, i, j, x)
  {
    hide IsRun;
    WakeTracks(states, moves, i, j, c, w, all, x);
  }

  // ---- Sleeping and exiting ----

  /** The thread has asked for its new state, and is not on a list yet. */
  predicate Entering(s: State, u: Tid, c: nat, goal: Goal)
  {
    u in s.threads && c < |s.cpus| && s.cpus[c].cur == u && s.threads[u].at.Enqueue? && s.threads[u].at.goal == goal
  }

  lemma EnterSelf(s: State, c: nat, a: Action, goal: Goal)
    requires Enabled(s, c, a) && Entering(s, s.Cur(c), c, goal) && !goal.ToReady?
    ensures Entering(Do(s, c, a), s.Cur(c), c, goal) || s.Cur(c) in Do(s, c, a).List(GoalList(goal, c))
  {
    hide State.Shape;
    CurThere(s, c);
  }

  lemma EnterStep(s: State, d: nat, a: Action, u: Tid, c: nat, goal: Goal)
    requires Inv(s) && Enabled(s, d, a) && Entering(s, u, c, goal) && !goal.ToReady?
    ensures Entering(Do(s, d, a), u, c, goal) || u in Do(s, d, a).List(GoalList(goal, c))
  {
    hide Inv, Enabled, Do;
    if d == c {
      EnterSelf(s, c, a, goal);
    } else {
      StepShape(s, d, a);
      OneStack(s, c, d);
      ControlOther(s, d, a, u);
      CurThere(Do(s, d, a), c);
    }
  }

  lemma EnterStarts(s: State, c: nat, a: Action)
    requires Inv(s) && Enabled(s, c, a) && a.Switch? && s.place[s.Cur(c)] == Nowhere
    ensures Entering(Do(s, c, a), s.Cur(c), c, a.goal)
  {
    hide Inv, Advance, HandOk, LevelOk, HeldOk, PlaceOk;
    Knows(s, c);
    hide State.Shape;
  }

  /** A thread that calls thread_switch to sleep or to exit is on its way, or has been, on the list it asked for. */
  lemma {:induction false} EnterTracks(states: seq<State>, moves: seq<(nat, Action)>, i: nat, j: nat, u: Tid)
    returns (m: nat)
    requires IsRun(states, moves) && i < j < |states| && moves[i].1.Switch? && !moves[i].1.goal.ToReady?
    requires moves[i].0 < |states[i].cpus| && states[i].cpus[moves[i].0].cur == u
    requires u in states[i].threads && u in states[i].place && states[i].place[u] == Nowhere
    ensures i < m <= j
    ensures || (m == j && Entering(states[j], u, moves[i].0, moves[i].1.goal))
            || u in states[m].List(GoalList(moves[i].1.goal, moves[i].0))
    decreases j
  {
    hide Inv, Do, Enabled, Entering;
    RunsKeep(states, moves, j - 1);
    RunStep(states, moves, j - 1);
    m := j;
    if j == i + 1 {
      EnterStarts(states[i], moves[i].0, moves[i].1);
    } else {
      var n := EnterTracks(states, moves, i, j - 1, u);
      if u in states[n].List(GoalList(moves[i].1.goal, moves[i].0)) {
        m := n;
      } else {
        EnterStep(states[j - 1], moves[j - 1].0, moves[j - 1].1, u, moves[i].0, moves[i].1.goal);
      }
    }
  }

  lemma EnteringIsNotBack(s: State, u: Tid, c: nat, goal: Goal)
    requires Entering(s, u, c, goal)
    ensures !IsBack(s, u)
  {}

  /** A thread that goes to sleep on a channel has been on that channel when it is back. */
  lemma SwitchSleeps(states: seq<State>, moves: seq<(nat, Action)>, i: nat, j: nat, u: Tid) returns (m: nat)
    requires IsRun(states, moves) && i < j < |states| && moves[i].1.Switch? && moves[i].1.goal.ToSleep?
    requires moves[i].0 < |states[i].cpus| && states[i].cpus[moves[i].0].cur == u && IsBack(states[j], u)
    requires u in states[i].threads && u in states[i].place && states[i].place[u] == Nowhere
    ensures i < m <= j && u in states[m].List(Waiters(moves[i].1.goal.w))
  {
    hide Inv, Do, Enabled, Booted, Entering, IsBack;
    m := EnterTracks(states, moves, i, j, u);
    if m == j && Entering(states[j], u, moves[i].0, moves[i].1.goal) {
      EnteringIsNotBack(states[j], u, moves[i].0, moves[i].1.goal);
    }
  }

  predicate IsZombie(s: State, u: Tid)
  {
    u in s.threads && u in s.place && s.place[u].On? && s.place[u].list.Zombies?
  }

  /** A zombie is the end of no list but a list of zombies. */
  ghost predicate NotAnEnd(s: State, u: Tid)
  {
    forall n: ListName :: !n.Zombies? && s.List(n) != [] ==> s.List(n)[0] != u && s.List(n)[|s.List(n)| - 1] != u
  }

  lemma ZombieEnds(s: State, u: Tid)
    requires ListsOk(s) && IsZombie(s, u)
    ensures NotAnEnd(s, u)
  {
    forall n: ListName | !n.Zombies? && s.List(n) != []
      ensures s.List(n)[0] != u && s.List(n)[|s.List(n)| - 1] != u
    {
      assert Lists(s.List(n), s.place, n) && s.List(n)[0] in s.List(n) && s.List(n)[|s.List(n)| - 1] in s.List(n);
    }
  }

  lemma NotThisEnd(s: State, u: Tid, n: ListName)
    requires NotAnEnd(s, u) && !n.Zombies? && s.List(n) != []
    ensures s.List(n)[0] != u && s.List(n)[|s.List(n)| - 1] != u
  {}

  /** While it exists it stays a zombie. */
  ghost predicate StaysZombie(s: State, s': State, u: Tid) { u in s'.threads && u in s'.place ==> IsZombie(s', u) }

  lemma ZombieMoves(s: State, d: nat, u: Tid)
    requires Enabled(s, d, Step) && s.Thr(d).phase.Go? && IsZombie(s, u) && NotAnEnd(s, u) && MovesOthers(s.Thr(d).at)
    ensures StaysZombie(s, Advance(s, d), u)
  {
    hide NotAnEnd;
    var at := s.Thr(d).at;
    var n := if at.Collecting? then Waiters(at.w) else if at.Pick? then RunQueue(d) else Hand(d);
    if s.List(n) != [] { NotThisEnd(s, u, n); }
  }

  lemma ZombieStays(s: State, d: nat, u: Tid)
    requires Enabled(s, d, Step) && s.Thr(d).phase.Go? && IsZombie(s, u) && !MovesOthers(s.Thr(d).at)
    requires s.Thr(d).at.Enqueue? ==> u != s.Cur(d)
    ensures StaysZombie(s, Advance(s, d), u)
  {
    hide State.Shape;
  }

  lemma ZombiePlain(s: State, d: nat, a: Action, u: Tid)
    requires Enabled(s, d, a) && IsZombie(s, u) && NotAnEnd(s, u) && !(a.Step? && s.Thr(d).phase.Go?)
    ensures StaysZombie(s, Do(s, d, a), u)
  {
    hide Advance, NotAnEnd;
    var n := if a.WakeOne? then Waiters(a.w) else if a.TakeOne? then RunQueue(d) else Hand(d);
    if s.List(n) != [] { NotThisEnd(s, u, n); }
  }

  lemma ZombieStep(s: State, d: nat, a: Action, u: Tid)
    requires Inv(s) && Enabled(s, d, a) && IsZombie(s, u)
    ensures StaysZombie(s, Do(s, d, a), u)
  {
    hide Inv, Do, Advance, StaysZombie, NotAnEnd, HandOk, HeldOk, LevelOk, LocksOk, ListsOk;
    InvParts(s);
    ZombieEnds(s, u);
    Knows(s, d);
    if a.Step? && s.Thr(d).phase.Go? {
      DoAdvances(s, d);
      if MovesOthers(s.Thr(d).at) { ZombieMoves(s, d, u); } else { NowhereAt(s, d); ZombieStays(s, d, u); }
    } else {
      ZombiePlain(s, d, a, u);
    }
  }

  lemma NowhereAt(s: State, d: nat)
    requires s.Shape() && d < |s.cpus| && PlaceAt(s.Thr(d), s.place[s.Cur(d)]) && LevelOk(s.Thr(d))
    ensures s.Thr(d).at.Enqueue? ==> s.place[s.Cur(d)] == Nowhere
  {}

  lemma {:induction false} ZombieTracks(states: seq<State>, moves: seq<(nat, Action)>, m: nat, j: nat, u: Tid)
    requires IsRun(states, moves) && m <= j < |states| && IsZombie(states[m], u)
    requires forall n :: m <= n <= j ==> u in states[n].threads
    ensures IsZombie(states[j], u)
    decreases j
  {
    hide Inv, Do, Enabled, Booted, IsZombie, ListsOk, LocksOk, ThreadOk;
    if j == m {
    } else {
      RunsKeep(states, moves, j);
      InvParts(states[j]);
      ZombieTracks(states, moves, m, j - 1, u);
      RunsKeep(states, moves, j - 1);
      RunStep(states, moves, j - 1);
      ZombieStep(states[j - 1], moves[j - 1].0, moves[j - 1].1, u);
    }
  }

  /** A thread that exits never comes back; it is a zombie until it is destroyed. */
  lemma ExitIsFinal(states: seq<State>, moves: seq<(nat, Action)>, i: nat, j: nat, u: Tid)
    requires IsRun(states, moves) && i < j < |states| && moves[i].1 == Switch(ToZombie)
    requires moves[i].0 < |states[i].cpus| && states[i].cpus[moves[i].0].cur == u
    requires u in states[i].threads && u in states[i].place && states[i].place[u] == Nowhere
    requires forall n :: i < n <= j ==> u in states[n].threads
    ensures !IsBack(states[j], u)
  {
    hide Inv, Do, Enabled, Entering;
    var m := EnterTracks(states, moves, i, j, u);
    if m == j && Entering(states[j], u, moves[i].0, ToZombie) {
      EnteringIsNotBack(states[j], u, moves[i].0, ToZombie);
    } else {
      RunsKeep(states, moves, m);
      InvParts(states[m]);
      ZombieListed(states[m], moves[i].0, u);
      ZombieTracks(states, moves, m, j, u);
    }
  }

  lemma ZombieListed(s: State, c: nat, u: Tid)
    requires s.Shape() && ListsOk(s) && u in s.List(Zombies(c))
    ensures IsZombie(s, u)
  {
    assert Lists(s.List(Zombies(c)), s.place, Zombies(c));
  }

  /** A processor switches to the thread that is first on its run queue, which then leaves the queue. */
  lemma FirstIsPicked(states: seq<State>, moves: seq<(nat, Action)>, i: nat, c: nat)
    requires IsRun(states, moves) && i < |moves| && c < |states[i].cpus|
    ensures c < |states[i + 1].cpus|
    ensures states[i + 1].cpus[c].cur != states[i].cpus[c].cur ==>
      var q := states[i].List(RunQueue(c));
      q != [] && states[i + 1].cpus[c].cur == q[0] && states[i + 1].List(RunQueue(c)) == q[1..]
  {
    hide Inv, Do, Enabled;
    RunsKeep(states, moves, i);
    RunStep(states, moves, i);
    StepShape(states[i], moves[i].0, moves[i].1);
    if moves[i].0 == c {
      PicksFirst(states[i], c, moves[i].1);
    } else {
      assert Do(states[i], moves[i].0, moves[i].1).Cur(c) == states[i].Cur(c);
    }
  }

  /** The current thread changes only where the code picks one. */
  ghost predicate PicksOnly(s: State, s': State, c: nat)
    requires c < |s.cpus|
  {
    c < |s'.cpus| && (s'.cpus[c].cur != s.cpus[c].cur ==>
      var q := s.List(RunQueue(c)); q != [] && s'.cpus[c].cur == q[0] && s'.List(RunQueue(c)) == q[1..])
  }

  lemma PicksFirst(s: State, c: nat, a: Action)
    requires Enabled(s, c, a)
    ensures PicksOnly(s, Do(s, c, a), c)
  {
    hide State.Shape, Do, Advance;
    CurThere(s, c);
    if !(a.Step? && s.Thr(c).phase.Go?) {
      CurPlain(s, c, a);
    } else {
      DoAdvances(s, c);
      if MovesOthers(s.Thr(c).at) { PickMoves(s, c); } else { CurStays(s, c); }
    }
  }

  ghost predicate SameCur(s: State, s': State, c: nat)
    requires c < |s.cpus|
  {
    c < |s'.cpus| && s'.cpus[c].cur == s.cpus[c].cur
  }

  lemma CurPlain(s: State, c: nat, a: Action)
    requires Enabled(s, c, a) && !(a.Step? && s.Thr(c).phase.Go?)
    ensures SameCur(s, Do(s, c, a), c)
  {
    hide State.Shape, Advance;
    CurThere(s, c);
  }

  lemma CurStays(s: State, c: nat)
    requires Enabled(s, c, Step) && s.Thr(c).phase.Go? && !MovesOthers(s.Thr(c).at)
    ensures SameCur(s, Advance(s, c), c)
  {
    hide State.Shape;
    CurThere(s, c);
  }

  lemma PickMoves(s: State, c: nat)
    requires Enabled(s, c, Step) && s.Thr(c).phase.Go? && MovesOthers(s.Thr(c).at)
    ensures PicksOnly(s, Advance(s, c), c)
  {
    hide State.Shape;
    CurThere(s, c);
  }

  // ---- Run queues and wait channels are first in, first out ----

  /** How a queue changes in one step: at its end somebody joins, at its front, or for the balancer its end, leaves. */
  predicate Shifts(q: seq<Tid>, q': seq<Tid>, taken: bool)
  {
    || q' == q
    || (|q'| == |q| + 1 && q == q'[..|q|])
    || (q != [] && q' == q[1..])
    || (taken && q != [] && q' == q[..|q| - 1])
  }

  predicate Fifo(n: ListName) { n.RunQueue? || n.Waiters? }

  lemma QueueOrder(states: seq<State>, moves: seq<(nat, Action)>, i: nat, n: ListName)
    requires IsRun(states, moves) && i < |moves| && Fifo(n)
    ensures Shifts(states[i].List(n), states[i + 1].List(n), moves[i].1.TakeOne?)
  {
    hide Inv, Do, Enabled, Shifts;
    RunsKeep(states, moves, i);
    RunStep(states, moves, i);
    var s, c, a := states[i], moves[i].0, moves[i].1;
    StepShifts(s, c, a, n);
  }

  lemma StepShifts(s: State, c: nat, a: Action, n: ListName)
    requires Enabled(s, c, a) && Fifo(n)
    ensures Shifts(s.List(n), Do(s, c, a).List(n), a.TakeOne?)
  {
    hide State.Shape, Do, Advance, Shifts;
    CurThere(s, c);
    if !(a.Step? && s.Thr(c).phase.Go?) {
      ShiftsPlain(s, c, a, n);
    } else {
      DoAdvances(s, c);
      if MovesOthers(s.Thr(c).at) { ShiftsMoves(s, c, n); } else { ShiftsStays(s, c, n); }
    }
  }

  lemma ShiftsPlain(s: State, c: nat, a: Action, n: ListName)
    requires Enabled(s, c, a) && !(a.Step? && s.Thr(c).phase.Go?) && Fifo(n)
    ensures Shifts(s.List(n), Do(s, c, a).List(n), a.TakeOne?)
  {
    hide State.Shape, Advance;
    CurThere(s, c);
  }

  lemma ShiftsMoves(s: State, c: nat, n: ListName)
    requires Enabled(s, c, Step) && s.Thr(c).phase.Go? && MovesOthers(s.Thr(c).at) && Fifo(n)
    ensures Shifts(s.List(n), Advance(s, c).List(n), false)
  {
    hide State.Shape;
    CurThere(s, c);
  }

  lemma ShiftsStays(s: State, c: nat, n: ListName)
    requires Enabled(s, c, Step) && s.Thr(c).phase.Go? && !MovesOthers(s.Thr(c).at) && Fifo(n)
    ensures Shifts(s.List(n), Advance(s, c).List(n), false)
  {
    hide State.Shape;
    CurThere(s, c);
  }

  ghost predicate Before(q: seq<Tid>, x: Tid, y: Tid)
  {
    exists k, l :: 0 <= k < l < |q| && q[k] == x && q[l] == y
  }

  lemma StillBefore(q: seq<Tid>, q': seq<Tid>, taken: bool, x: Tid, y: Tid)
    requires Shifts(q, q', taken) && Before(q, x, y) && x in q' && y in q'
    requires forall k, l :: 0 <= k < l < |q| ==> q[k] != q[l]
    ensures Before(q', x, y)
  {
    var k, l :| 0 <= k < l < |q| && q[k] == x && q[l] == y;
    if q != [] && q' == q[1..] {
      assert k > 0;
      assert q'[k - 1] == x && q'[l - 1] == y;
    } else {
      assert q'[k] == x && q'[l] == y;
    }
  }

  lemma StepKeepsOrder(states: seq<State>, moves: seq<(nat, Action)>, i: nat, n: ListName, x: Tid, y: Tid)
    requires IsRun(states, moves) && i + 1 < |states| && Fifo(n) && Before(states[i].List(n), x, y)
    requires x in states[i + 1].List(n) && y in states[i + 1].List(n)
    ensures Before(states[i + 1].List(n), x, y)
  {
    hide Inv, Do, Enabled, Before, Shifts;
    assert i < |moves|;
    hide IsRun;
    QueueOrder(states, moves, i, n);
    var q := states[i].List(n);
    forall k, l | 0 <= k < l < |q| ensures q[k] != q[l] {
      if q[k] == q[l] { OneList(states, moves, i, n, k, n, l); }
    }
    StillBefore(q, states[i + 1].List(n), moves[i].1.TakeOne?, x, y);
  }

  /** Nobody overtakes: of two threads that stay on a run queue or a wait channel, the first stays first. */
  lemma {:induction false} OrderKept(states: seq<State>, moves: seq<(nat, Action)>, i: nat, j: nat, n: ListName,
                                     x: Tid, y: Tid)
    requires IsRun(states, moves) && i <= j < |states| && Fifo(n) && Before(states[i].List(n), x, y)
    requires forall m :: i <= m <= j ==> x in states[m].List(n) && y in states[m].List(n)
    ensures Before(states[j].List(n), x, y)
    decreases j
  {
    hide IsRun, Before;
    if i == j {
    } else {
      OrderKept(states, moves, i, j - 1, n, x, y);
      StepKeepsOrder(states, moves, j - 1, n, x, y);
    }
  }
}
