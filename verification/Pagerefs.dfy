/**
 The kernel heap's bookkeeping entries, pagerefs: sixteen roots, each with a
 page of 256 entries that is allocated on first use, a bitmap of the entries in
 use, and their number.  Allocating a root's page drops the heap lock, so
 threads overtake each other there.
 */
module Pagerefs {

  const ROOTS := 16
  const WORD := 32
  const WORDS := 8
  const ENTRIES := 256
  const PAGE_SIZE := 4096
  const REF_SIZE := 16

  type Tid(==) = nat

  /** Entry `index` of the page of root `root`. */
  datatype Ref = Ref(root: nat, index: nat)

  /** page is the address of the root's page, 0 while there is none. */
  datatype Root = Root(page: nat, inuse: seq<bool>, numinuse: nat)

  datatype Slot = NoSlot | Slot(r: Ref)

  // ---- The bitmap ----

  function Count(bits: seq<bool>, n: nat): (k: nat)
    requires n <= |bits|
  {
    if n == 0 then 0 else Count(bits, n - 1) + (if bits[n - 1] then 1 else 0)
  }

  predicate RootOk(r: Root)
  {
    |r.inuse| == ENTRIES && r.numinuse == Count(r.inuse, ENTRIES)
  }

  predicate RootsOk(roots: seq<Root>)
  {
    |roots| == ROOTS && forall w :: 0 <= w < ROOTS ==> RootOk(roots[w])
  }

  /** The arrays have the lengths their types give them. */
  predicate Shaped(roots: seq<Root>)
  {
    |roots| == ROOTS && forall w :: 0 <= w < ROOTS ==> |roots[w].inuse| == ENTRIES
  }

  lemma {:induction false} CountAll(bits: seq<bool>, n: nat)
    requires n <= |bits|
    ensures Count(bits, n) <= n
    ensures Count(bits, n) == n <==> forall i :: 0 <= i < n ==> bits[i]
  {
    if n == 0 {
    } else {
      CountAll(bits, n - 1);
    }
  }

  lemma {:induction false} CountSet(bits: seq<bool>, n: nat, i: nat, b: bool)
    requires n <= |bits| && i < |bits| && bits[i] != b
    ensures Count(bits[i := b], n) == Count(bits, n) + (if i >= n then 0 else if b then 1 else -1)
  {
    if n == 0 {
    } else {
      CountSet(bits, n - 1, i, b);
    }
  }

  /** A root that is not full has a clear bit. */
  lemma SomeClear(r: Root)
    requires RootOk(r) && r.numinuse < ENTRIES
    ensures exists k :: 0 <= k < ENTRIES && !r.inuse[k]
  {
    CountAll(r.inuse, ENTRIES);
  }

  /** The lowest clear bit of the first root that is not full. */
  ghost predicate IsSlot(roots: seq<Root>, s: Slot)
    requires Shaped(roots)
  {
    match s
    case NoSlot => forall w :: 0 <= w < ROOTS ==> roots[w].numinuse == ENTRIES
    case Slot(r) =>
      && r.root < ROOTS && r.index < ENTRIES
      && (forall w :: 0 <= w < r.root ==> roots[w].numinuse == ENTRIES)
      && !roots[r.root].inuse[r.index]
      && (forall k :: 0 <= k < r.index ==> roots[r.root].inuse[k])
  }

  /**
   The search of allocpageref: by root, by word, by bit.  Its assertion that a word that is not full
   has a clear bit holds.
   */
  method Search(roots: seq<Root>) returns (s: Slot)
    requires RootsOk(roots)
    ensures IsSlot(roots, s)
  {
    for w := 0 to ROOTS
      invariant forall v :: 0 <= v < w ==> roots[v].numinuse == ENTRIES
    {
      CountAll(roots[w].inuse, ENTRIES);
      if roots[w].numinuse < ENTRIES {
        var bits := roots[w].inuse;
        for i := 0 to WORDS
          invariant forall k :: 0 <= k < i * WORD ==> bits[k]
        {
          var full := forall k :: i * WORD <= k < (i + 1) * WORD ==> bits[k];
          if !full {
            for j := 0 to WORD
              invariant forall k :: 0 <= k < i * WORD + j ==> bits[k]
            {
              if !bits[i * WORD + j] { return Slot(Ref(w, i * WORD + j)); }
            }
            assert false;
          }
        }
      }
    }
    return NoSlot;
  }

  /** There is only one such place, so the search decides which entry is handed out. */
  lemma SlotUnique(roots: seq<Root>, s: Slot, s': Slot)
    requires RootsOk(roots) && IsSlot(roots, s) && IsSlot(roots, s')
    ensures s == s'
  {
    forall w | 0 <= w < ROOTS
      ensures roots[w].numinuse == ENTRIES ==> forall k :: 0 <= k < ENTRIES ==> roots[w].inuse[k]
    {
      CountAll(roots[w].inuse, ENTRIES);
    }
  }

  // ---- Allocation and release by any number of threads ----

  /** What became of an entry whose bit is set: handed out, waiting for its root's page, or lost because that failed. */
  datatype Status = Out | Waiting(t: Tid) | Lost

  datatype State = State(roots: seq<Root>, status: map<Ref, Status>)

  datatype Move =
    | Reserve(t: Tid, slot: Slot)    // allocpageref up to where it returns or drops the lock
    | Finish(r: Ref, va: nat)        // the rest, with the page that alloc_kpages gave, 0 if none
    | Free(r: Ref)                   // freepageref

  predicate IsRef(r: Ref) { r.root < ROOTS && r.index < ENTRIES }

  function SetBit(roots: seq<Root>, r: Ref, b: bool): (roots': seq<Root>)
    requires |roots| == ROOTS && IsRef(r) && |roots[r.root].inuse| == ENTRIES
    requires b || roots[r.root].numinuse > 0
  {
    var x := roots[r.root];
    roots[r.root := x.(inuse := x.inuse[r.index := b], numinuse := if b then x.numinuse + 1 else x.numinuse - 1)]
  }

  predicate IsOut(s: State, r: Ref) { r in s.status && s.status[r].Out? }

  predicate IsWaiting(s: State, r: Ref, t: Tid) { r in s.status && s.status[r] == Waiting(t) }

  predicate Aligned(va: nat) { va % PAGE_SIZE == 0 }

  /** A page that alloc_kpages can return: it is nobody else's. */
  predicate FreshPage(s: State, va: nat)
  {
    Aligned(va) && forall w :: 0 <= w < |s.roots| ==> s.roots[w].page != va
  }

  ghost predicate PagesOk(roots: seq<Root>)
  {
    && (forall w :: 0 <= w < |roots| ==> Aligned(roots[w].page))
    && (forall v, w :: 0 <= v < w < |roots| && roots[v].page != 0 ==> roots[v].page != roots[w].page)
  }

  ghost predicate StatusOk(s: State)
    requires RootsOk(s.roots)
  {
    && (forall r :: r in s.status <==> IsRef(r) && s.roots[r.root].inuse[r.index])
    && (forall r :: r in s.status && s.status[r].Out? ==> s.roots[r.root].page != 0)
  }

  ghost predicate Valid(s: State)
  {
    RootsOk(s.roots) && StatusOk(s) && PagesOk(s.roots)
  }

  /** What freepageref asserts of the roots it passes: one without a page has nothing in use. */
  predicate CleanBefore(roots: seq<Root>, w: nat)
    requires w <= |roots|
  {
    forall v :: 0 <= v < w && roots[v].page == 0 ==> roots[v].numinuse == 0
  }

  /** The step from s to s' by move m, and the entry it returns.  There is none where an assertion fails. */
  ghost predicate Next(s: State, s': State, m: Move, got: Slot)
  {
    Shaped(s.roots) &&
    match m
    case Reserve(t, slot) =>
      && IsSlot(s.roots, slot)
      && (if slot.NoSlot? then s' == s && got == NoSlot
          else
            && s'.roots == SetBit(s.roots, slot.r, true)
            && (if s.roots[slot.r.root].page != 0 then s'.status == s.status[slot.r := Out] && got == slot
                else s'.status == s.status[slot.r := Waiting(t)] && got == NoSlot))
    case Finish(r, va) =>
      && r in s.status && s.status[r].Waiting? && IsRef(r)
      && (if s.roots[r.root].page != 0 then s' == s.(status := s.status[r := Out]) && got == Slot(r)
          else if va == 0 then s' == s.(status := s.status[r := Lost]) && got == NoSlot
          else
            && FreshPage(s, va) && got == Slot(r)
            && s' == State(s.roots[r.root := s.roots[r.root].(page := va)], s.status[r := Out]))
    case Free(r) =>
      && IsOut(s, r) && IsRef(r) && CleanBefore(s.roots, r.root)
      && s.roots[r.root].inuse[r.index] && s.roots[r.root].numinuse > 0
      && s' == State(SetBit(s.roots, r, false), s.status - {r}) && got == NoSlot
  }

  lemma BitKeeps(s: State, r: Ref, b: bool)
    requires Valid(s) && IsRef(r) && s.roots[r.root].inuse[r.index] != b
    ensures b || s.roots[r.root].numinuse > 0
    ensures RootsOk(SetBit(s.roots, r, b))
  {
    CountSet(s.roots[r.root].inuse, ENTRIES, r.index, b);
  }

  lemma PagesKeep(roots: seq<Root>, r: Ref, b: bool)
    requires PagesOk(roots) && |roots| == ROOTS && IsRef(r) && |roots[r.root].inuse| == ENTRIES
    requires b || roots[r.root].numinuse > 0
    ensures PagesOk(SetBit(roots, r, b))
  {}

  lemma NextKeeps(s: State, s': State, m: Move, got: Slot)
    requires Valid(s) && Next(s, s', m, got)
    ensures Valid(s')
  {
    hide Aligned, Count;
    match m
    case Reserve(t, slot) =>
      if slot.Slot? { BitKeeps(s, slot.r, true); PagesKeep(s.roots, slot.r, true); StatusKeeps(s, s', slot.r); }
    case Finish(r, va) =>
    case Free(r) =>
      BitKeeps(s, r, false);
      PagesKeep(s.roots, r, false);
      StatusKeeps(s, s', r);
  }

  lemma StatusKeeps(s: State, s': State, r: Ref)
    requires Valid(s) && RootsOk(s'.roots) && IsRef(r)
    requires if s.roots[r.root].inuse[r.index] then
               s.roots[r.root].numinuse > 0 && s' == State(SetBit(s.roots, r, false), s.status - {r})
             else s'.roots == SetBit(s.roots, r, true) && r in s'.status && s'.status == s.status[r := s'.status[r]]
                  && (s'.status[r].Out? ==> s.roots[r.root].page != 0)
    ensures StatusOk(s')
  {
    hide PagesOk, Count;
  }

  /** Which entries are out after a step: the one it returns joins them, the one it frees leaves. */
  lemma OutAfter(s: State, s': State, m: Move, got: Slot, r: Ref)
    requires Valid(s) && Next(s, s', m, got)
    ensures IsOut(s', r) <==> got == Slot(r) || (IsOut(s, r) && m != Free(r))
    ensures got == Slot(r) ==> !IsOut(s, r) && IsRef(r) && s'.roots[r.root].page != 0
  {}

  /** Which entries are waiting for their root's page, and for whom. */
  lemma WaitingAfter(s: State, s': State, m: Move, got: Slot, r: Ref, t: Tid)
    requires Valid(s) && Next(s, s', m, got)
    ensures IsWaiting(s', r, t) <==>
      || (m == Reserve(t, Slot(r)) && got.NoSlot?)
      || (IsWaiting(s, r, t) && !(m.Finish? && m.r == r))
  {}

  ghost predicate Started(s: State)
  {
    && |s.roots| == ROOTS && s.status == map[]
    && forall w :: 0 <= w < ROOTS ==> s.roots[w] == Root(0, seq(ENTRIES, i => false), 0)
  }

  ghost predicate IsRun(states: seq<State>, moves: seq<Move>, got: seq<Slot>)
  {
    && |states| == |moves| + 1 && |got| == |moves| && Started(states[0])
    && (forall i :: 0 <= i < |moves| ==> Next(states[i], states[i + 1], moves[i], got[i]))
  }

  lemma StartedValid(s: State)
    requires Started(s)
    ensures Valid(s)
  {
    forall w | 0 <= w < ROOTS ensures RootOk(s.roots[w]) { NoneSet(s.roots[w].inuse, ENTRIES); }
  }

  lemma {:induction false} NoneSet(bits: seq<bool>, n: nat)
    requires n <= |bits| && forall i :: 0 <= i < n ==> !bits[i]
    ensures Count(bits, n) == 0
  {
    if n == 0 {
    } else {
      NoneSet(bits, n - 1);
    }
  }

  lemma {:induction false} RunsValid(states: seq<State>, moves: seq<Move>, got: seq<Slot>, i: nat)
    requires IsRun(states, moves, got) && i < |states|
    ensures Valid(states[i])
  {
    if i == 0 { StartedValid(states[0]); }
    else {
      RunsValid(states, moves, got, i - 1);
      NextKeeps(states[i - 1], states[i], moves[i - 1], got[i - 1]);
    }
  }

  /** In every run, an entry that is handed out was not out before, however allocations overtook each other. */
  lemma HandedOutFresh(states: seq<State>, moves: seq<Move>, got: seq<Slot>, i: nat)
    requires IsRun(states, moves, got) && i < |moves| && got[i].Slot?
    ensures IsRef(got[i].r) && !IsOut(states[i], got[i].r)
    ensures IsOut(states[i + 1], got[i].r) && states[i + 1].roots[got[i].r.root].page != 0
  {
    RunsValid(states, moves, got, i);
    hide Valid, Next;
    OutAfter(states[i], states[i + 1], moves[i], got[i], got[i].r);
    assert |states[i + 1].roots| == ROOTS by { RunsValid(states, moves, got, i + 1); RootsThere(states[i + 1]); }
  }

  lemma RootsThere(s: State)
    requires Valid(s)
    ensures |s.roots| == ROOTS
  {}

  /** An entry handed out twice was freed in between. */
  lemma HandedOutOnce(states: seq<State>, moves: seq<Move>, got: seq<Slot>, i: nat, j: nat)
    requires IsRun(states, moves, got) && i < j < |moves| && got[i].Slot? && got[j] == got[i]
    ensures Free(got[i].r) in moves[i + 1..j]
  {
    HandedOutFresh(states, moves, got, i);
    HandedOutFresh(states, moves, got, j);
    if Free(got[i].r) !in moves[i + 1..j] { StaysOut(states, moves, got, i + 1, j, got[i].r); }
  }

  lemma {:induction false} StaysOut(states: seq<State>, moves: seq<Move>, got: seq<Slot>, i: nat, j: nat, r: Ref)
    requires IsRun(states, moves, got) && i <= j <= |moves| && IsOut(states[i], r) && Free(r) !in moves[i..j]
    ensures IsOut(states[j], r)
    decreases j
  {
    hide Valid, Next;
    if i == j {
    } else {
      assert moves[i..j] == moves[i..j - 1] + [moves[j - 1]];
      StaysOut(states, moves, got, i, j - 1, r);
      RunsValid(states, moves, got, j - 1);
      OutAfter(states[j - 1], states[j], moves[j - 1], got[j - 1], r);
    }
  }

  // ---- freepageref ----

  /** What freeing an entry does when it succeeds. */
  lemma FreeStep(s: State, r: Ref)
    requires Valid(s) && IsOut(s, r)
    ensures IsRef(r) && |s.roots| == ROOTS && |s.roots[r.root].inuse| == ENTRIES && s.roots[r.root].numinuse > 0
    ensures CleanBefore(s.roots, r.root) ==>
      Next(s, State(SetBit(s.roots, r, false), s.status - {r}), Free(r), NoSlot)
  {
    hide PagesOk;
    BitKeeps(s, r, false);
  }

  /** An entry that is out can be freed exactly if freepageref meets no root without a page that has entries in use. */
  lemma FreePasses(s: State, r: Ref)
    requires Valid(s) && IsOut(s, r)
    ensures IsRef(r) && ((exists s' :: Next(s, s', Free(r), NoSlot)) <==> CleanBefore(s.roots, r.root))
  {
    hide Valid;
    FreeStep(s, r);
  }

  datatype Outcome = Freed(roots: seq<Root>) | Failed

  /** The address of an entry. */
  function Addr(roots: seq<Root>, r: Ref): (p: nat)
    requires r.root < |roots|
  {
    roots[r.root].page + r.index * REF_SIZE
  }

  /** An entry's address lies on its own root's page, at its own index, and on no other root's. */
  lemma OnePage(roots: seq<Root>, r: Ref, w: nat)
    requires |roots| == ROOTS && PagesOk(roots) && IsRef(r) && w < ROOTS
    requires roots[r.root].page != 0 && roots[w].page != 0
    ensures roots[w].page <= Addr(roots, r) < roots[w].page + PAGE_SIZE <==> w == r.root
    ensures (Addr(roots, r) - roots[r.root].page) / REF_SIZE == r.index
  {}

  /** Finding an entry's root by its address, as freepageref does. */
  method FreeRef(roots: seq<Root>, p: nat, ghost status: map<Ref, Status>, ghost r: Ref) returns (o: Outcome)
    requires Valid(State(roots, status)) && IsOut(State(roots, status), r) && p == Addr(roots, r)
    ensures roots[r.root].numinuse > 0
    ensures o == if CleanBefore(roots, r.root) then Freed(SetBit(roots, r, false)) else Failed
  {
    hide Count, PagesOk, Aligned, Addr;
    BitKeeps(State(roots, status), r, false);
    var w := 0;
    while w < ROOTS
      invariant 0 <= w <= r.root && CleanBefore(roots, w)
    {
      var root := roots[w];
      if root.page == 0 {
        if root.numinuse != 0 { return Failed; }
      } else {
        OnePage(roots, r, w);
        if root.page <= p < root.page + PAGE_SIZE {
          return Freed(SetBit(roots, Ref(w, (p - root.page) / REF_SIZE), false));
        }
      }
      w := w + 1;
    }
  }

  // ---- Entries lost to a failed page allocation ----

  /** After k allocations have each failed to get the first root's page. */
  function Leaked(k: nat): (s: State)
    requires k <= ENTRIES
  {
    State([Root(0, seq(ENTRIES, i => i < k), k)] + seq(ROOTS - 1, w => Root(0, seq(ENTRIES, i => false), 0)),
          map r | r in RefsBelow(k) :: Lost)
  }

  function RefsBelow(k: nat): (rs: set<Ref>)
  {
    set i: nat | i < k :: Ref(0, i)
  }

  lemma {:induction false} CountBelow(bits: seq<bool>, k: nat, n: nat)
    requires n <= |bits| && forall i :: 0 <= i < |bits| ==> bits[i] == (i < k)
    ensures Count(bits, n) == if n <= k then n else k
  {
    if n == 0 {
    } else {
      CountBelow(bits, k, n - 1);
    }
  }

  lemma LeakedValid(k: nat)
    requires k <= ENTRIES
    ensures Valid(Leaked(k))
  {
    var s := Leaked(k);
    CountBelow(s.roots[0].inuse, k, ENTRIES);
    forall w | 1 <= w < ROOTS ensures RootOk(s.roots[w]) { NoneSet(s.roots[w].inuse, ENTRIES); }
  }

  lemma LeakedStarted()
    ensures Started(Leaked(0))
  {}

  /** Failing once more takes two steps. */
  lemma LeakStep(k: nat) returns (mid: State)
    requires k < ENTRIES
    ensures Next(Leaked(k), mid, Reserve(0, Slot(Ref(0, k))), NoSlot)
    ensures Next(mid, Leaked(k + 1), Finish(Ref(0, k), 0), NoSlot)
  {
    LeakedValid(k);
    var s, s' := Leaked(k), Leaked(k + 1);
    mid := State(s'.roots, s.status[Ref(0, k) := Waiting(0)]);
    assert s'.roots[0].inuse == s.roots[0].inuse[k := true];
    assert s'.roots == SetBit(s.roots, Ref(0, k), true);
    NextKeeps(s, mid, Reserve(0, Slot(Ref(0, k))), NoSlot);
    assert s'.status == mid.status[Ref(0, k) := Lost];
  }

  lemma {:induction false} LeakRun(k: nat) returns (states: seq<State>, moves: seq<Move>, got: seq<Slot>)
    requires k <= ENTRIES
    ensures IsRun(states, moves, got) && states[|moves|] == Leaked(k)
  {
    if k == 0 {
      LeakedStarted();
      states, moves, got := [Leaked(0)], [], [];
    } else {
      states, moves, got := LeakRun(k - 1);
      var mid := LeakStep(k - 1);
      var m1, m2 := Reserve(0, Slot(Ref(0, k - 1))), Finish(Ref(0, k - 1), 0);
      Extended(states, moves, got, mid, m1, NoSlot);
      Extended(states + [mid], moves + [m1], got + [NoSlot], Leaked(k), m2, NoSlot);
      states, moves, got := states + [mid] + [Leaked(k)], moves + [m1] + [m2], got + [NoSlot] + [NoSlot];
    }
  }

  /** Then an entry of the second root can be handed out. */
  lemma AfterLeak(va: nat) returns (mid: State, last: State)
    requires va > 0 && Aligned(va)
    ensures Next(Leaked(ENTRIES), mid, Reserve(0, Slot(Ref(1, 0))), NoSlot)
    ensures Next(mid, last, Finish(Ref(1, 0), va), Slot(Ref(1, 0)))
    ensures |mid.roots| == |last.roots| == ROOTS && mid.roots[1].page == 0 && last.roots[1].page == va
    ensures IsOut(last, Ref(1, 0)) && !CleanBefore(last.roots, 1)
  {
    hide Count;
    var s, r := Leaked(ENTRIES), Ref(1, 0);
    LeakedValid(ENTRIES);
    mid := State(SetBit(s.roots, r, true), s.status[r := Waiting(0)]);
    last := State(mid.roots[1 := mid.roots[1].(page := va)], mid.status[r := Out]);
    assert last.roots[0].page == 0 && last.roots[0].numinuse == ENTRIES;
  }

  /** But it cannot be taken back: freepageref's assertion about roots without a page fails. */
  lemma LeakBreaksFree() returns (states: seq<State>, moves: seq<Move>, got: seq<Slot>)
    ensures IsRun(states, moves, got)
    ensures IsOut(states[|moves|], Ref(1, 0)) && !exists s' :: Next(states[|moves|], s', Free(Ref(1, 0)), NoSlot)
  {
    states, moves, got := LeakRun(ENTRIES);
    var s1, s2 := AfterLeak(PAGE_SIZE);
    hide Next;
    var m1, m2 := Reserve(0, Slot(Ref(1, 0))), Finish(Ref(1, 0), PAGE_SIZE);
    Extended(states, moves, got, s1, m1, NoSlot);
    Extended(states + [s1], moves + [m1], got + [NoSlot], s2, m2, Slot(Ref(1, 0)));
    states, moves, got := states + [s1] + [s2], moves + [m1] + [m2], got + [NoSlot] + [Slot(Ref(1, 0))];
    RunsValid(states, moves, got, |moves|);
    FreePasses(s2, Ref(1, 0));
  }

  lemma Extended(states: seq<State>, moves: seq<Move>, got: seq<Slot>, s: State, m: Move, g: Slot)
    requires IsRun(states, moves, got) && Next(states[|moves|], s, m, g)
    ensures IsRun(states + [s], moves + [m], got + [g])
  {}
}
