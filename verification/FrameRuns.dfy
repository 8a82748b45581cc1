/**
 getppages and freeppages by any number of threads.  Each stretch of code under
 one of the two spinlocks is one step; between them, and where the code reads
 without a lock, threads overtake each other.
 */
module FrameRuns {
  import C = Coremap

  type Tid(==) = nat

  /** How far a thread is in getppages or freeppages, and the frames from f on, n of them, that it has in hand. */
  datatype Stage =
    | Searching(np: nat)                       // has seen the table active, about to search freed frames
    | Stealing(np: nat)                        // about to ask the bump allocator
    | Got(f: nat, n: nat)                      // has frames, about to see whether the table is active
    | Recording(f: nat, n: nat)                // about to record their number
    | Reading(f: nat, n: nat, recorded: bool)  // freeppages, about to read the number without a lock
    | Marking(f: nat, n: nat, recorded: bool, k: nat)    // about to mark k frames free

  /** Frames a caller has, and whether their number was recorded when it got them. */
  datatype Held = Held(n: nat, recorded: bool)

  datatype Owner = Nobody | Caller(f: nat) | Thread(t: Tid)

  datatype State = State(
    free: seq<bool>,
    sizes: seq<nat>,
    active: bool,
    first: nat,                  // the bump allocator's mark
    last: nat,                   // the end of memory
    live: map<nat, Held>,        // outstanding allocations, by their first frame
    stage: map<Tid, Stage>,      // threads inside getppages or freeppages
    owner: seq<Owner>            // who has each frame; no step depends on it
  ) {
    function Mark(): (m: nat) { first / C.PAGE_SIZE }
  }

  datatype Move =
    | Bootstrap
    | Ask(t: Tid, np: nat)           // getppages is called
    | Search(t: Tid, found: int)     // getfreeppages, under its lock
    | Steal(t: Tid)                  // ram_stealmem, under its lock
    | See(t: Tid)                    // the second look at whether the table is active
    | Store(t: Tid)                  // the number is recorded
    | Release(t: Tid, f: nat)        // freeppages is called
    | Read(t: Tid)                   // the number is read
    | Give(t: Tid)                   // the frames are marked free

  function Filled<T>(s: seq<T>, f: nat, n: nat, x: T): (s': seq<T>)
    ensures |s'| == |s| && forall k :: 0 <= k < |s| ==> s'[k] == if f <= k < f + n then x else s[k]
  {
    seq(|s|, k requires 0 <= k < |s| => if f <= k < f + n then x else s[k])
  }

  /** A request that is not empty and whose end does not pass 2^32, wherever it starts. */
  predicate Sane(s: State, np: nat) { 0 < np && s.last + np * C.PAGE_SIZE < C.WORD }

  ghost predicate Next(s: State, s': State, m: Move)
  {
    match m
    case Bootstrap => !s.active && s' == s.(active := true)
    case Ask(t, np) =>
      && t !in s.stage && Sane(s, np)
      && s' == s.(stage := s.stage[t := if s.active then Searching(np) else Stealing(np)])
    case Search(t, found) =>
      && t in s.stage && s.stage[t].Searching?
      && var np := s.stage[t].np;
         && C.FirstRun(s.free, found, np) && found < |s.sizes|
         && (if found < 0 then s' == s.(stage := s.stage[t := Stealing(np)])
             else s' == s.(free := Filled(s.free, found, np, false), sizes := s.sizes[found := np],
                           stage := s.stage[t := Got(found, np)], owner := Filled(s.owner, found, np, Thread(t))))
    case Steal(t) =>
      && t in s.stage && s.stage[t].Stealing? && s.first < C.WORD && s.last < C.WORD
      && var np := s.stage[t].np;
         var st := C.StealMem(s.first, s.last, np);
         if st.addr == 0 then s' == s.(first := st.first, stage := s.stage - {t})
         else s' == s.(first := st.first, stage := s.stage[t := Got(st.addr / C.PAGE_SIZE, np)],
                       owner := Filled(s.owner, st.addr / C.PAGE_SIZE, np, Thread(t)))
    case See(t) =>
      && t in s.stage && s.stage[t].Got?
      && var g := s.stage[t];
         if s.active then s' == s.(stage := s.stage[t := Recording(g.f, g.n)])
         else s' == Returned(s, t, g.f, g.n, false)
    case Store(t) =>
      && t in s.stage && s.stage[t].Recording? && s.stage[t].f < |s.sizes|
      && var g := s.stage[t];
         s' == Returned(s, t, g.f, g.n, true).(sizes := s.sizes[g.f := g.n])
    case Release(t, f) =>
      && t !in s.stage && f in s.live
      && (if s.active then s' == s.(live := s.live - {f},
                                    stage := s.stage[t := Reading(f, s.live[f].n, s.live[f].recorded)],
                                    owner := Filled(s.owner, f, s.live[f].n, Thread(t)))
          else s' == s)    // nothing happens; the frames stay with the caller
    case Read(t) =>
      && t in s.stage && s.stage[t].Reading? && s.stage[t].f < |s.sizes|
      && var g := s.stage[t];
         s' == s.(stage := s.stage[t := Marking(g.f, g.n, g.recorded, s.sizes[g.f])])
    case Give(t) =>
      && t in s.stage && s.stage[t].Marking?
      && var g := s.stage[t];
         s' == s.(free := Filled(s.free, g.f, g.k, true), stage := s.stage - {t},
                  owner := Filled(s.owner, g.f, g.n, Nobody))
  }

  /** getppages returns the frames to its caller. */
  function Returned(s: State, t: Tid, f: nat, n: nat, recorded: bool): (s': State)
  {
    s.(live := s.live[f := Held(n, recorded)], stage := s.stage - {t}, owner := Filled(s.owner, f, n, Caller(f)))
  }

  // ---- The invariant ----

  /** The frames from f on, n of them, are handed out, and all of them are w's. */
  ghost predicate Region(s: State, f: nat, n: nat, w: Owner)
  {
    && 0 < f && 0 < n && f + n <= s.Mark() && f + n <= |s.owner|
    && (forall k :: f <= k < f + n ==> s.owner[k] == w)
  }

  ghost predicate Shape(s: State)
  {
    && |s.free| == |s.sizes| == |s.owner| && s.last == |s.free| * C.PAGE_SIZE < C.WORD
    && 0 < s.first <= s.last && s.first % C.PAGE_SIZE == 0
  }

  /** Free frames are nobody's and have been handed out before. */
  ghost predicate FreeOk(s: State)
    requires Shape(s)
  {
    && (forall k :: 0 <= k < |s.free| && s.free[k] ==> 0 < k < s.Mark() && s.owner[k] == Nobody)
    && (forall k :: s.Mark() <= k < |s.owner| ==> s.owner[k] == Nobody)
    && (!s.active ==> forall k :: 0 <= k < |s.free| ==> !s.free[k] && s.sizes[k] == 0)
  }

  ghost predicate LiveOk(s: State, f: nat)
    requires Shape(s) && f in s.live
  {
    && Region(s, f, s.live[f].n, Caller(f)) && f < |s.sizes|
    && s.sizes[f] == (if s.live[f].recorded then s.live[f].n else 0)
    && (s.live[f].recorded ==> s.active)
  }

  ghost predicate StageOk(s: State, t: Tid)
    requires Shape(s) && t in s.stage
  {
    match s.stage[t]
    case Searching(np) => Sane(s, np) && s.active
    case Stealing(np) => Sane(s, np)
    case Got(f, n) => Region(s, f, n, Thread(t))
    case Recording(f, n) => Region(s, f, n, Thread(t)) && s.active
    case Reading(f, n, recorded) =>
      && Region(s, f, n, Thread(t)) && s.active && f < |s.sizes| && s.sizes[f] == (if recorded then n else 0)
    case Marking(f, n, recorded, k) =>
      Region(s, f, n, Thread(t)) && s.active && k == (if recorded then n else 0)
  }

  ghost predicate Lives(s: State)
    requires Shape(s)
  {
    forall f :: f in s.live ==> LiveOk(s, f)
  }

  ghost predicate Stages(s: State)
    requires Shape(s)
  {
    forall t :: t in s.stage ==> StageOk(s, t)
  }

  ghost predicate Inv(s: State)
  {
    Shape(s) && FreeOk(s) && Lives(s) && Stages(s)
  }

  // ---- Each step keeps it ----

  lemma Parts(s: State)
    requires Inv(s)
    ensures Shape(s) && FreeOk(s) && Lives(s) && Stages(s)
  {}

  lemma Assemble(s: State)
    requires Shape(s) && FreeOk(s) && Lives(s) && Stages(s)
    ensures Inv(s)
  {}

  /** The frames from f on, n of them, go from one owner to another; the rest of the memory is as it was. */
  ghost predicate Passes(s: State, s': State, f: nat, n: nat, w: Owner, w': Owner)
  {
    && Shape(s) && Shape(s') && s'.last == s.last && s.Mark() <= s'.Mark() && s'.active == s.active
    && 0 < n && f + n <= |s.owner| && (forall k :: f <= k < f + n ==> s.owner[k] == w)
    && s'.owner == Filled(s.owner, f, n, w')
    && (forall k :: 0 <= k < |s.sizes| && k != f ==> s'.sizes[k] == s.sizes[k])
  }

  /** Other regions are not touched. */
  lemma OtherRegion(s: State, s': State, f: nat, n: nat, w: Owner, w': Owner, g: nat, m: nat, x: Owner)
    requires Passes(s, s', f, n, w, w') && Region(s, g, m, x) && x != w
    ensures Region(s', g, m, x) && g != f && g < |s.sizes| && s'.sizes[g] == s.sizes[g]
  {
    assert s.owner[g] == x;
    forall k | g <= k < g + m ensures s'.owner[k] == x { assert s.owner[k] == x; }
  }

  lemma OtherStages(s: State, s': State, f: nat, n: nat, w: Owner, w': Owner, t: Tid)
    requires Passes(s, s', f, n, w, w') && Stages(s)
    requires forall u :: u != t ==> (u in s'.stage <==> u in s.stage) && (u in s.stage ==> s'.stage[u] == s.stage[u])
    requires w == Nobody || w == Thread(t) || w.Caller?
    requires t in s'.stage ==> StageOk(s', t)
    ensures Stages(s')
  {
    hide Passes, Region, Filled;
    PassesKnows(s, s', f, n, w, w');
    forall u | u in s'.stage && u != t ensures StageOk(s', u) {
      assert StageOk(s, u);
      var g := s.stage[u];
      if !g.Searching? && !g.Stealing? { OtherRegion(s, s', f, n, w, w', g.f, g.n, Thread(u)); }
    }
  }

  lemma PassesKnows(s: State, s': State, f: nat, n: nat, w: Owner, w': Owner)
    requires Passes(s, s', f, n, w, w')
    ensures Shape(s) && Shape(s') && s'.last == s.last && s'.active == s.active
  {}

  lemma OtherLives(s: State, s': State, f: nat, n: nat, w: Owner, w': Owner)
    requires Passes(s, s', f, n, w, w') && Lives(s) && (w == Caller(f) || !w.Caller?)
    requires forall g :: g != f ==> (g in s'.live <==> g in s.live) && (g in s.live ==> s'.live[g] == s.live[g])
    requires f in s'.live ==> LiveOk(s', f)
    ensures Lives(s')
  {
    hide Passes, Region, Filled;
    PassesKnows(s, s', f, n, w, w');
    forall g | g in s'.live && g != f ensures LiveOk(s', g) {
      assert LiveOk(s, g);
      OtherRegion(s, s', f, n, w, w', g, s.live[g].n, Caller(g));
    }
  }

  /** Nobody's frames, or a thread's, are not the first of an outstanding allocation. */
  lemma NotLive(s: State, f: nat)
    requires Shape(s) && Lives(s) && f < |s.owner| && !s.owner[f].Caller?
    ensures f !in s.live
  {
    if f in s.live { LiveAt(s, f); }
  }

  lemma LiveAt(s: State, f: nat)
    requires Shape(s) && Lives(s) && f in s.live
    ensures Region(s, f, s.live[f].n, Caller(f)) && s.owner[f] == Caller(f)
    ensures f < |s.sizes| && s.sizes[f] == (if s.live[f].recorded then s.live[f].n else 0)
  {
    assert LiveOk(s, f);
  }

  lemma SearchKeeps(s: State, s': State, t: Tid, found: int)
    requires Inv(s) && Next(s, s', Search(t, found)) && found >= 0
    ensures Inv(s')
  {
    hide Inv, Lives, Stages, StageOk;
    Parts(s);
    StageAt(s, t);
    var np := s.stage[t].np;
    assert forall k :: found <= k < found + np ==> s.free[k];
    assert Passes(s, s', found, np, Nobody, Thread(t));
    NotLive(s, found);
    OtherLives(s, s', found, np, Nobody, Thread(t));
    assert s.free[found + np - 1];
    StageIs(s', t);
    OtherStages(s, s', found, np, Nobody, Thread(t), t);
    Assemble(s');
  }

  /** What the stage of a thread says. */
  lemma StageAt(s: State, t: Tid)
    requires Shape(s) && Stages(s) && t in s.stage
    ensures match s.stage[t]
      case Searching(np) => Sane(s, np) && s.active
      case Stealing(np) => Sane(s, np)
      case Got(f, n) => Region(s, f, n, Thread(t))
      case Recording(f, n) => Region(s, f, n, Thread(t)) && s.active
      case Reading(f, n, recorded) =>
        && Region(s, f, n, Thread(t)) && s.active && f < |s.sizes| && s.sizes[f] == (if recorded then n else 0)
      case Marking(f, n, recorded, k) =>
        Region(s, f, n, Thread(t)) && s.active && k == (if recorded then n else 0)
  {
    assert StageOk(s, t);
  }

  /** A thread that has just got frames. */
  lemma StageIs(s: State, t: Tid)
    requires Shape(s) && t in s.stage && s.stage[t].Got? && Region(s, s.stage[t].f, s.stage[t].n, Thread(t))
    ensures StageOk(s, t)
  {}

  /** The bump allocator hands out what lies beyond the mark. */
  lemma StealTakes(first: nat, last: nat, np: nat, n: nat)
    requires last == n * C.PAGE_SIZE < C.WORD && 0 < first <= last && first % C.PAGE_SIZE == 0
    requires 0 < np && last + np * C.PAGE_SIZE < C.WORD
    ensures var st := C.StealMem(first, last, np);
      if st.addr == 0 then st.first == first
      else
        && st.addr == first && st.first == first + np * C.PAGE_SIZE <= last && st.first % C.PAGE_SIZE == 0
        && st.first / C.PAGE_SIZE == first / C.PAGE_SIZE + np && 0 < first / C.PAGE_SIZE
        && first / C.PAGE_SIZE + np <= n
  {
    C.StealExact(first, last, np);
    if C.StealMem(first, last, np).addr != 0 { C.Ahead(first, n, np); }
  }

  lemma StealKeeps(s: State, s': State, t: Tid)
    requires Inv(s) && Next(s, s', Steal(t))
    ensures Inv(s')
  {
    hide Inv, Lives, Stages, StageOk, C.StealMem;
    Parts(s);
    StageAt(s, t);
    var np, f := s.stage[t].np, s.Mark();
    StealTakes(s.first, s.last, np, |s.free|);
    if C.StealMem(s.first, s.last, np).addr == 0 {
      Quiet(s, s', t);
    } else {
      assert Passes(s, s', f, np, Nobody, Thread(t));
      NotLive(s, f);
      OtherLives(s, s', f, np, Nobody, Thread(t));
      StageIs(s', t);
      OtherStages(s, s', f, np, Nobody, Thread(t), t);
      Assemble(s');
    }
  }

  /** A step that changes only how far a thread is. */
  lemma Quiet(s: State, s': State, t: Tid)
    requires Inv(s) && s' == s.(stage := s'.stage) && (t in s'.stage ==> StageOk(s', t))
    requires forall u :: u != t ==> (u in s'.stage <==> u in s.stage) && (u in s.stage ==> s'.stage[u] == s.stage[u])
    ensures Inv(s')
  {
    forall f | f in s'.live ensures LiveOk(s', f) { assert LiveOk(s, f); }
    forall u | u in s'.stage ensures StageOk(s', u) { if u != t { assert StageOk(s, u); } }
  }

  lemma QuietKeeps(s: State, s': State, m: Move)
    requires Inv(s) && Next(s, s', m)
    requires m.Ask? || m.Read? || (m.Search? && m.found < 0) || (m.See? && s.active)
    ensures Inv(s')
  {
    hide Inv;
    Parts(s);
    hide Lives, Stages, FreeOk;
    if !m.Ask? { StageAt(s, m.t); }
    Quiet(s, s', m.t);
  }

  /** The table becomes active with all lengths zero and nothing free. */
  lemma BootKeeps(s: State, s': State)
    requires Inv(s) && Next(s, s', Bootstrap)
    ensures Inv(s')
  {
    forall f | f in s'.live ensures LiveOk(s', f) { assert LiveOk(s, f); }
    forall u | u in s'.stage ensures StageOk(s', u) { assert StageOk(s, u); }
  }

  lemma ReturnKeeps(s: State, s': State, m: Move)
    requires Inv(s) && Next(s, s', m) && (m.Store? || (m.See? && !s.active))
    ensures Inv(s')
  {
    hide Inv, Lives, Stages, StageOk;
    Parts(s);
    var t := m.t;
    StageAt(s, t);
    var f, n := s.stage[t].f, s.stage[t].n;
    assert Passes(s, s', f, n, Thread(t), Caller(f));
    OtherLives(s, s', f, n, Thread(t), Caller(f));
    OtherStages(s, s', f, n, Thread(t), Caller(f), t);
    Assemble(s');
  }

  lemma ReleaseKeeps(s: State, s': State, t: Tid, f: nat)
    requires Inv(s) && Next(s, s', Release(t, f)) && s.active
    ensures Inv(s')
  {
    hide Inv, Lives, Stages;
    Parts(s);
    LiveAt(s, f);
    var n := s.live[f].n;
    assert Passes(s, s', f, n, Caller(f), Thread(t));
    OtherLives(s, s', f, n, Caller(f), Thread(t));
    OtherStages(s, s', f, n, Caller(f), Thread(t), t);
    Assemble(s');
  }

  lemma GiveKeeps(s: State, s': State, t: Tid)
    requires Inv(s) && Next(s, s', Give(t))
    ensures Inv(s')
  {
    hide Inv, Lives, Stages, StageOk;
    Parts(s);
    StageAt(s, t);
    var f, n := s.stage[t].f, s.stage[t].n;
    assert Passes(s, s', f, n, Thread(t), Nobody);
    NotLive(s, f);
    OtherLives(s, s', f, n, Thread(t), Nobody);
    OtherStages(s, s', f, n, Thread(t), Nobody, t);
    Assemble(s');
  }

  lemma NextKeeps(s: State, s': State, m: Move)
    requires Inv(s) && Next(s, s', m)
    ensures Inv(s')
  {
    hide Inv;
    match m
    case Bootstrap => BootKeeps(s, s');
    case Ask(_, _) => QuietKeeps(s, s', m);
    case Search(t, found) => if found < 0 { QuietKeeps(s, s', m); } else { SearchKeeps(s, s', t, found); }
    case Steal(t) => StealKeeps(s, s', t);
    case See(_) => if s.active { QuietKeeps(s, s', m); } else { ReturnKeeps(s, s', m); }
    case Store(_) => ReturnKeeps(s, s', m);
    case Release(t, f) => if s.active { ReleaseKeeps(s, s', t, f); }
    case Read(_) => QuietKeeps(s, s', m);
    case Give(t) => GiveKeeps(s, s', t);
  }

  // ---- Whole runs ----

  /** Before the table exists; the kernel itself lies below the mark. */
  ghost predicate Booted(s: State)
  {
    && Shape(s) && !s.active && s.live == map[] && s.stage == map[]
    && (forall k :: 0 <= k < |s.free| ==> !s.free[k] && s.sizes[k] == 0 && s.owner[k] == Nobody)
  }

  ghost predicate IsRun(states: seq<State>, moves: seq<Move>)
  {
    && |states| == |moves| + 1 && Booted(states[0])
    && (forall i :: 0 <= i < |moves| ==> Next(states[i], states[i + 1], moves[i]))
  }

  lemma {:induction false} RunsKeep(states: seq<State>, moves: seq<Move>, i: nat)
    requires IsRun(states, moves) && i < |states|
    ensures Inv(states[i])
    decreases i
  {
    hide Next;
    if i == 0 {
      assert Inv(states[0]);
    } else {
      hide Inv;
      RunsKeep(states, moves, i - 1);
      NextKeeps(states[i - 1], states[i], moves[i - 1]);
    }
  }

  /** Outstanding allocations share no frame, lie in memory that was handed out, and none of their frames is free. */
  lemma FramesApart(states: seq<State>, moves: seq<Move>, i: nat, f: nat, g: nat)
    requires IsRun(states, moves) && i < |states| && f in states[i].live && g in states[i].live
    ensures f != g ==> C.Apart(f, states[i].live[f].n, g, states[i].live[g].n)
    ensures 0 < f && 0 < states[i].live[f].n && f + states[i].live[f].n <= |states[i].free|
    ensures forall k :: f <= k < f + states[i].live[f].n ==> !states[i].free[k]
  {
    hide IsRun, Inv;
    RunsKeep(states, moves, i);
    var s := states[i];
    Parts(s);
    LiveAt(s, f);
    LiveAt(s, g);
    if f != g { RegionsApart(s, f, s.live[f].n, Caller(f), g, s.live[g].n, Caller(g)); }
  }

  lemma RegionsApart(s: State, f: nat, n: nat, w: Owner, g: nat, m: nat, x: Owner)
    requires Region(s, f, n, w) && Region(s, g, m, x) && w != x
    ensures C.Apart(f, n, g, m)
  {
    assert s.owner[f] == w && s.owner[g] == x;
  }

  /** Nor do they share one with what a thread inside getppages or freeppages has in hand, nor do two threads. */
  lemma HandsApart(states: seq<State>, moves: seq<Move>, i: nat, t: Tid, f: nat, u: Tid)
    requires IsRun(states, moves) && i < |states| && t in states[i].stage && InHand(states[i].stage[t])
    ensures f in states[i].live ==>
      C.Apart(states[i].stage[t].f, states[i].stage[t].n, f, states[i].live[f].n)
    ensures u in states[i].stage && u != t && InHand(states[i].stage[u]) ==>
      C.Apart(states[i].stage[t].f, states[i].stage[t].n, states[i].stage[u].f, states[i].stage[u].n)
  {
    hide IsRun, Inv, Lives, Stages, Region;
    RunsKeep(states, moves, i);
    var s := states[i];
    Parts(s);
    StageAt(s, t);
    var g := s.stage[t];
    if f in s.live {
      LiveAt(s, f);
      RegionsApart(s, g.f, g.n, Thread(t), f, s.live[f].n, Caller(f));
    }
    if u in s.stage && u != t && InHand(s.stage[u]) {
      StageAt(s, u);
      RegionsApart(s, g.f, g.n, Thread(t), s.stage[u].f, s.stage[u].n, Thread(u));
    }
  }

  predicate InHand(g: Stage) { !g.Searching? && !g.Stealing? }

  /** Frames that getppages finds or takes were nobody's: in no allocation, in no thread's hands. */
  lemma GotFresh(states: seq<State>, moves: seq<Move>, i: nat, t: Tid, k: nat)
    requires IsRun(states, moves) && i < |moves| && (moves[i] == Steal(t) || (moves[i].Search? && moves[i].t == t))
    requires t in states[i + 1].stage && states[i + 1].stage[t].Got?
    requires states[i + 1].stage[t].f <= k < states[i + 1].stage[t].f + states[i + 1].stage[t].n
    ensures k < |states[i].owner| && states[i].owner[k] == Nobody
  {
    hide Inv, Lives;
    RunsKeep(states, moves, i);
    var s, s' := states[i], states[i + 1];
    assert Next(s, s', moves[i]);
    hide IsRun, C.StealMem;
    Parts(s);
    StageAt(s, t);
    if moves[i].Search? {
      assert s.free[k];
    } else {
      StealTakes(s.first, s.last, s.stage[t].np, |s.free|);
    }
  }

  /** freeppages frees all the frames of an allocation whose number was recorded, and none of one made before that. */
  lemma FreedWhole(states: seq<State>, moves: seq<Move>, i: nat, t: Tid)
    requires IsRun(states, moves) && i < |moves| && moves[i] == Give(t)
    ensures t in states[i].stage && states[i].stage[t].Marking?
    ensures var g := states[i].stage[t];
      states[i + 1].free == if g.recorded then Filled(states[i].free, g.f, g.n, true) else states[i].free
  {
    hide Inv, Lives, FreeOk;
    RunsKeep(states, moves, i);
    var s := states[i];
    assert Next(s, states[i + 1], moves[i]);
    hide IsRun;
    Parts(s);
    StageAt(s, t);
  }

  /** A run exists: sixteen frames, the first of them the kernel's. */
  lemma BootRun() returns (s: State)
    ensures IsRun([s], [])
  {
    s := State(seq(16, k => false), seq(16, k => 0), false, C.PAGE_SIZE, 16 * C.PAGE_SIZE, map[], map[],
               seq(16, k => Nobody));
  }
}
