/**
 Physical frames.  Frames come first from ram_stealmem, which only ever moves
 forward; frames that were freed are found again by a first-fit search for a
 run of the wanted length.
 */
module Coremap {

  const PAGE_SIZE := 4096
  const WORD := 0x1_0000_0000

  // ---- The bump allocator ----

  datatype Steal = Steal(addr: nat, first: nat)

  /** ram_stealmem: the address, 0 if refused, and the new first free address, all in 32 bits. */
  function StealMem(first: nat, last: nat, npages: nat): (s: Steal)
    requires first < WORD && last < WORD
  {
    var size := npages * PAGE_SIZE % WORD;
    if (first + size) % WORD > last then Steal(0, first) else Steal(first, (first + size) % WORD)
  }

  /** What it is for: a region that ends within memory, or a refusal if there is none. */
  predicate StealRight(first: nat, last: nat, npages: nat)
    requires first < WORD && last < WORD
  {
    var s := StealMem(first, last, npages);
    if first + npages * PAGE_SIZE <= last then s == Steal(first, first + npages * PAGE_SIZE) else s == Steal(0, first)
  }

  /** It is right exactly if the end of the region does not wrap around to an address within memory. */
  lemma StealExact(first: nat, last: nat, npages: nat)
    requires 0 < first <= last < WORD
    ensures StealRight(first, last, npages) <==>
            first + npages * PAGE_SIZE < WORD || (first + npages * PAGE_SIZE) % WORD > last
  {}

  /**
   Sixteen megabytes of memory, half of it free: a request for four gigabytes less two pages succeeds
   and moves the mark back.
   */
  lemma StealWraps()
    ensures StealMem(0x80_0000, 0x100_0000, 0xf_fffe) == Steal(0x80_0000, 0x7f_e000)
  {}

  // ---- First fit ----

  /** A run of n free frames starts at i. */
  ghost predicate RunAt(free: seq<bool>, i: int, n: nat)
  {
    0 <= i && i + n <= |free| && forall k :: i <= k < i + n ==> free[k]
  }

  ghost predicate FirstRun(free: seq<bool>, i: int, n: nat)
  {
    if i < 0 then forall j :: 0 <= j < |free| ==> !RunAt(free, j, n)
    else RunAt(free, i, n) && forall j :: 0 <= j < i ==> !RunAt(free, j, n)
  }

  function AtLeastOne(n: int): (m: nat) { if n <= 0 then 1 else n }

  /** An unsigned long read as a long. */
  function AsLong(np: nat): (n: int)
    requires np < WORD
    ensures -0x8000_0000 <= n < 0x8000_0000 && (np - n) % 0x1_0000_0000 == 0
  {
    if np < WORD / 2 then np else np - WORD
  }

  /** How many frames a request really reserves: none if it reads as a negative number. */
  function Reserved(np: nat): (n: nat)
    requires np < WORD
  {
    if AsLong(np) > 0 then AsLong(np) else 0
  }

  /** The search of getfreeppages.  A request for no frames, or for a negative number, finds the first free one. */
  method Search(free: array<bool>, np: int) returns (found: int)
    ensures FirstRun(free[..], found, AtLeastOne(np)) && found < free.Length
  {
    ghost var m := AtLeastOne(np);
    var first := -1;
    found := -1;
    var i := 0;
    while i < free.Length
      invariant 0 <= i <= free.Length && found == -1
      invariant forall j :: 0 <= j && j + m <= i ==> !RunAt(free[..], j, m)
      invariant i > 0 && free[i - 1] ==> 0 <= first < i && i - first < m && (first == 0 || !free[first - 1])
                                         && forall k :: first <= k < i ==> free[k]
    {
      if free[i] {
        if i == 0 || !free[i - 1] { first := i; }
        if i - first + 1 >= np {
          found := first;
          return;
        }
      }
      forall j | 0 <= j && j + m == i + 1 ensures !RunAt(free[..], j, m) { EndsHere(free[..], first, i, j, m); }
      i := i + 1;
    }
    assert forall j :: 0 <= j < free.Length && RunAt(free[..], j, m) ==> j + m <= i;
  }

  /** No run of length m ends here if this frame is not free, or its run is too short. */
  lemma EndsHere(free: seq<bool>, first: int, i: nat, j: nat, m: nat)
    requires i < |free| && j + m == i + 1 && m > 0
    requires free[i] ==> 0 <= first <= i && i - first + 1 < m && (first == 0 || !free[first - 1])
    ensures !RunAt(free, j, m)
  {}

  // ---- Allocation and release ----

  /** Frames s..s+n and t..t+k share none. */
  predicate Apart(s: nat, n: nat, t: nat, k: nat) { s + n <= t || t + k <= s }

  /**
   Outstanding allocations share no frame with each other or with the free frames; nothing beyond the
   mark is in use.
   */
  ghost predicate TableOk(free: seq<bool>, sizes: seq<nat>, live: map<nat, nat>, mark: nat)
  {
    && |free| == |sizes| && mark <= |free|
    && (forall k :: 0 <= k < |free| && free[k] ==> 0 < k < mark)
    && (forall s :: s in live ==> 0 < s && 0 < live[s] && s + live[s] <= mark && sizes[s] == live[s])
    && (forall s, k :: s in live && s <= k < s + live[s] ==> !free[k])
    && (forall s, t :: s in live && t in live && s != t ==> Apart(s, live[s], t, live[t]))
  }

  /** Frames from f on, n of them, become b. */
  ghost predicate Marked(free: seq<bool>, free': seq<bool>, f: nat, n: nat, b: bool)
  {
    |free'| == |free| && forall k :: 0 <= k < |free| ==> free'[k] == if f <= k < f + n then b else free[k]
  }

  /** Frames taken from a run of free ones and given back are free as before, and no others. */
  lemma GiveUndoesTake(free: seq<bool>, taken: seq<bool>, given: seq<bool>, f: nat, n: nat)
    requires RunAt(free, f, AtLeastOne(n)) && Marked(free, taken, f, n, false) && Marked(taken, given, f, n, true)
    ensures given == free
  {
    forall k | 0 <= k < |free| ensures given[k] == free[k] {
      if f <= k < f + n { assert free[k]; }
    }
  }

  function Record(live: map<nat, nat>, f: nat, n: nat): (live': map<nat, nat>)
  {
    if n > 0 then live[f := n] else live
  }

  lemma TakeOk(free: seq<bool>, free': seq<bool>, sizes: seq<nat>, live: map<nat, nat>, mark: nat, f: nat, n: nat,
               np: nat)
    requires TableOk(free, sizes, live, mark) && RunAt(free, f, AtLeastOne(n)) && Marked(free, free', f, n, false)
    requires n == 0 || np == n
    ensures f > 0 && f !in live && TableOk(free', sizes[f := np], Record(live, f, n), mark)
  {
    assert free[f];
    LiveTaken(free, sizes, live, mark, f, f);
    forall s | s in live && n > 0 ensures Apart(s, live[s], f, n) {
      LiveTaken(free, sizes, live, mark, s, f);
      LiveTaken(free, sizes, live, mark, s, s);
    }
    assert n > 0 ==> free[f + n - 1];
  }

  lemma LiveTaken(free: seq<bool>, sizes: seq<nat>, live: map<nat, nat>, mark: nat, s: nat, k: nat)
    requires TableOk(free, sizes, live, mark)
    ensures s in live ==> 0 < live[s] && s + live[s] <= mark <= |free| == |sizes| && sizes[s] == live[s]
    ensures s in live && s <= k < s + live[s] ==> k < |free| && !free[k]
  {}

  lemma StealOk(free: seq<bool>, sizes: seq<nat>, live: map<nat, nat>, mark: nat, n: nat)
    requires TableOk(free, sizes, live, mark) && 0 < mark && mark + n <= |free|
    ensures mark !in live && TableOk(free, sizes, live, mark + n)
    ensures mark < |free| ==> TableOk(free, sizes[mark := n], Record(live, mark, n), mark + n)
  {
    LiveTaken(free, sizes, live, mark, mark, mark);
  }

  // ---- Where a length is recorded ----

  /** Freed frames satisfy the request. */
  ghost predicate Reuses(free: seq<bool>, active: bool, np: nat)
    requires np < WORD
  {
    active && exists i :: 0 <= i < |free| && RunAt(free, i, AtLeastOne(AsLong(np)))
  }

  /** getppages records no length, or records it within the table. */
  ghost predicate RecordsInside(free: seq<bool>, active: bool, first: nat, last: nat, np: nat)
    requires np < WORD && first < WORD && last < WORD
  {
    active && !Reuses(free, active, np) && StealMem(first, last, np).addr != 0 ==>
      StealMem(first, last, np).addr / PAGE_SIZE < |free|
  }

  /**
   It does so exactly if the table is not active yet, or freed frames serve, or some memory has not
   been handed out, or the bump allocator refuses.
   */
  lemma RecordExact(free: seq<bool>, active: bool, first: nat, last: nat, np: nat)
    requires np < WORD && last == |free| * PAGE_SIZE < WORD && 0 < first <= last && first % PAGE_SIZE == 0
    ensures RecordsInside(free, active, first, last, np) <==>
            !active || Reuses(free, active, np) || first < last || (first + np * PAGE_SIZE) % WORD > last
  {
    hide Reuses;
    assert first / PAGE_SIZE < |free| <==> first < last;
    SizeWraps(first, np);
  }

  lemma SizeWraps(first: nat, np: nat)
    ensures (first + np * PAGE_SIZE % WORD) % WORD == (first + np * PAGE_SIZE) % WORD
  {}

  /** All of sixteen megabytes handed out, none of it freed, and an empty request: the length goes past the table. */
  lemma RecordsPast(free: seq<bool>)
    requires |free| == 0x1000 && forall k :: 0 <= k < |free| ==> !free[k]
    ensures !RecordsInside(free, true, 0x100_0000, 0x100_0000, 0)
  {
    forall i | 0 <= i < |free| ensures !RunAt(free, i, 1) { assert !free[i]; }
  }

  // ---- Giving frames back ----

  /** The n frames from f on are in memory handed out and in no allocation but the one at f. */
  ghost predicate Unshared(live: map<nat, nat>, mark: nat, f: nat, n: nat)
  {
    n == 0 || (0 < f && f + n <= mark && forall s :: s in live && s != f ==> Apart(s, live[s], f, n))
  }

  lemma OwnUnshared(free: seq<bool>, sizes: seq<nat>, live: map<nat, nat>, mark: nat, f: nat)
    requires TableOk(free, sizes, live, mark) && f in live
    ensures Unshared(live, mark, f, live[f])
  {}

  /** Giving frames back keeps outstanding allocations and free frames apart exactly if no other allocation has them. */
  lemma GiveExact(free: seq<bool>, free': seq<bool>, sizes: seq<nat>, live: map<nat, nat>, mark: nat, f: nat, n: nat)
    requires TableOk(free, sizes, live, mark) && f + n <= |free| && Marked(free, free', f, n, true)
    ensures TableOk(free', sizes, live - {f}, mark) <==> Unshared(live, mark, f, n)
  {
    var live' := live - {f};
    if TableOk(free', sizes, live', mark) && n > 0 {
      assert free'[f] && free'[f + n - 1];
      forall s | s in live && s != f ensures Apart(s, live[s], f, n) {
        LiveTaken(free', sizes, live', mark, s, f);
        LiveTaken(free', sizes, live', mark, s, s);
      }
    }
  }

  /**
   Frames 1 and 2 were allocated one by one, freed, and allocated again as one: the length recorded for
   frame 2 is left over.  Freeing it once more would free half of an allocation.
   */
  lemma StaleLength()
    ensures TableOk([false, false, false], [0, 2, 1], map[1 := 2], 3)
    ensures !Unshared(map[1 := 2], 3, 2, 1)
  {
    var live := map[1 := 2];
    assert 1 in live && !Apart(1, live[1], 2, 1);
  }

  class Frames {
    const free: array<bool>           // freeRamFrames
    const allocSize: array<nat>
    const last: nat                   // the end of memory
    var active: bool                  // allocTableActive
    var first: nat                    // the bump allocator's mark
    ghost var live: map<nat, nat>     // allocations that can be freed, and their lengths

    /** The first frame the bump allocator has not handed out. */
    function Mark(): (m: nat)
      reads this
    {
      first / PAGE_SIZE
    }

    ghost predicate Valid()
      reads this, free, allocSize
    {
      && free.Length == allocSize.Length && last == free.Length * PAGE_SIZE < WORD
      && 0 < first <= last && first % PAGE_SIZE == 0
      && (!active ==> live == map[])
      && TableOk(free[..], allocSize[..], live, Mark())
    }

    /** coremap_bootstrap: every frame is in use, by whoever got it from the bump allocator. */
    constructor (n: nat, first: nat)
      requires n * PAGE_SIZE < WORD && 0 < first <= n * PAGE_SIZE && first % PAGE_SIZE == 0
      ensures Valid() && active && live == map[] && free.Length == n && this.first == first
      ensures allocSize.Length == n && forall k :: 0 <= k < n ==> !free[k] && allocSize[k] == 0
    {
      free := new bool[n](i => false);
      allocSize := new nat[n](i => 0);
      last, active, this.first, live := n * PAGE_SIZE, true, first, map[];
    }

    /** getfreeppages: the first run of free frames that is long enough, if there is one. */
    method GetFree(np: nat) returns (addr: nat)
      requires Valid() && np < WORD
      modifies this`live, free, allocSize
      ensures Valid()
      ensures addr == 0 <==> !Reuses(old(free[..]), active, np)
      ensures addr == 0 ==> free[..] == old(free[..]) && allocSize[..] == old(allocSize[..]) && live == old(live)
      ensures addr != 0 ==>
        && addr % PAGE_SIZE == 0 && FirstRun(old(free[..]), addr / PAGE_SIZE, AtLeastOne(AsLong(np)))
        && addr / PAGE_SIZE < free.Length && allocSize[..] == old(allocSize[..])[addr / PAGE_SIZE := np]
        && addr / PAGE_SIZE !in old(live)
        && live == (if Reserved(np) > 0 then old(live)[addr / PAGE_SIZE := Reserved(np)] else old(live))
        && Marked(old(free[..]), free[..], addr / PAGE_SIZE, Reserved(np), false)
    {
      hide TableOk, FirstRun;
      if !active { return 0; }
      var n := AsLong(np);
      var found := Search(free, n);
      FirstFacts(free[..], found, AtLeastOne(n));
      if found < 0 { return 0; }
      ghost var was, sizes := free[..], allocSize[..];
      assert Marked(was, free[..], found, 0, false);
      var i := found;
      while i < found + n
        invariant found <= i && (i == found || i <= found + n)
        invariant Marked(was, free[..], found, i - found, false)
        modifies free
      {
        free[i] := false;
        i := i + 1;
      }
      TakeOk(was, free[..], sizes, live, Mark(), found, Reserved(np), np);
      assert allocSize[..] == sizes;
      allocSize[found] := np;
      assert allocSize[..] == sizes[found := np];
      live := Record(live, found, Reserved(np));
      addr := found * PAGE_SIZE;
    }

    /**
     freeppages.  The frames whose number is recorded become free; that is right exactly if no other
     allocation has any of them, as it is for every outstanding one.
     */
    method Free(addr: nat) returns (ok: bool)
      requires Valid()
      requires active ==>
        && addr / PAGE_SIZE < free.Length && addr / PAGE_SIZE + allocSize[addr / PAGE_SIZE] <= free.Length
      modifies this`live, free
      ensures ok == active && (!active ==> Valid() && live == old(live) && free[..] == old(free[..]))
      ensures active ==>
        && live == old(live) - {addr / PAGE_SIZE}
        && Marked(old(free[..]), free[..], addr / PAGE_SIZE, allocSize[addr / PAGE_SIZE], true)
        && (Valid() <==> Unshared(old(live), Mark(), addr / PAGE_SIZE, allocSize[addr / PAGE_SIZE]))
      ensures active && addr / PAGE_SIZE in old(live) ==>
        Valid() && allocSize[addr / PAGE_SIZE] == old(live)[addr / PAGE_SIZE]
    {
      hide TableOk, Unshared;
      if !active { return false; }
      var f := addr / PAGE_SIZE;
      LiveTaken(free[..], allocSize[..], live, Mark(), f, f);
      var np := allocSize[f];
      ghost var was, sizes := free[..], allocSize[..];
      for i := f to f + np
        invariant Marked(was, free[..], f, i - f, true)
        modifies free
      {
        free[i] := true;
      }
      GiveExact(was, free[..], sizes, live, Mark(), f, np);
      if f in live { OwnUnshared(was, sizes, live, Mark(), f); }
      assert allocSize[..] == sizes;
      live := live - {f};
      return true;
    }

    /**
     getppages: freed frames first, then new ones.  Where the bump allocator is right, outstanding
     allocations stay apart; where it is not, what it hands out ends past memory.
     */
    method Get(np: nat) returns (addr: nat)
      requires Valid() && np < WORD && RecordsInside(free[..], active, first, last, np)
      modifies this`live, this`first, free, allocSize
      ensures Reuses(old(free[..]), active, np) ==>
        && addr != 0 && first == old(first) && FirstRun(old(free[..]), addr / PAGE_SIZE, AtLeastOne(AsLong(np)))
        && Marked(old(free[..]), free[..], addr / PAGE_SIZE, Reserved(np), false)
      ensures !Reuses(old(free[..]), active, np) ==>
        Steal(addr, first) == StealMem(old(first), last, np) && free[..] == old(free[..])
      ensures addr % PAGE_SIZE == 0
      ensures if addr != 0 && active then
                && addr / PAGE_SIZE < free.Length && allocSize[..] == old(allocSize[..])[addr / PAGE_SIZE := np]
              else allocSize[..] == old(allocSize[..])
      ensures Reuses(old(free[..]), active, np) || StealRight(old(first), last, np) ==>
        && Valid()
        && (if addr != 0 && active then
              && live == (if Reserved(np) > 0 then old(live)[addr / PAGE_SIZE := Reserved(np)] else old(live))
              && (Reserved(np) > 0 ==> addr / PAGE_SIZE !in old(live))
            else live == old(live))
      ensures !Reuses(old(free[..]), active, np) && !StealRight(old(first), last, np) ==>
        live == old(live) && addr == old(first) && addr + np * PAGE_SIZE > last
    {
      hide TableOk, FirstRun, RunAt, Reuses, StealMem, StealRight;
      addr := GetFree(np);
      if addr == 0 {
        addr := GetNew(np);
      } else {
        ReusesActive(old(free[..]), active, np);
        ghost var sizes := allocSize[..];
        allocSize[addr / PAGE_SIZE] := np;
        assert allocSize[..] == sizes;
      }
    }

    /** The rest of getppages when no freed frames serve. */
    method GetNew(np: nat) returns (addr: nat)
      requires Valid() && np < WORD
      requires active && StealMem(first, last, np).addr != 0 ==>
        StealMem(first, last, np).addr / PAGE_SIZE < free.Length
      modifies this`live, this`first, allocSize
      ensures Steal(addr, first) == StealMem(old(first), last, np) && addr % PAGE_SIZE == 0
      ensures if addr != 0 && active then
                && addr / PAGE_SIZE < free.Length && allocSize[..] == old(allocSize[..])[addr / PAGE_SIZE := np]
              else allocSize[..] == old(allocSize[..])
      ensures StealRight(old(first), last, np) ==>
        && Valid()
        && (if addr != 0 && active then
              && live == (if Reserved(np) > 0 then old(live)[addr / PAGE_SIZE := Reserved(np)] else old(live))
              && (Reserved(np) > 0 ==> addr / PAGE_SIZE !in old(live))
            else live == old(live))
      ensures !StealRight(old(first), last, np) ==>
        live == old(live) && addr == old(first) && addr + np * PAGE_SIZE > last
    {
      hide TableOk, StealMem, StealRight;
      StealFacts(first, last, np);
      ghost var right := StealRight(first, last, np);
      var st := StealMem(first, last, np);
      if st.addr != 0 && right {
        Ahead(first, free.Length, np);
        StealOk(free[..], allocSize[..], live, Mark(), np);
      }
      addr, first := st.addr, st.first;
      if addr != 0 && active {
        allocSize[addr / PAGE_SIZE] := np;
        if right { live := Record(live, addr / PAGE_SIZE, np); }
        assert allocSize[..] == old(allocSize[..])[addr / PAGE_SIZE := np];
      } else {
        assert allocSize[..] == old(allocSize[..]);
      }
    }
  }

  lemma ReusesActive(free: seq<bool>, active: bool, np: nat)
    requires np < WORD && Reuses(free, active, np)
    ensures active
  {}

  /** What the bump allocator does, right or wrong. */
  lemma StealFacts(first: nat, last: nat, np: nat)
    requires 0 < first <= last < WORD && first % PAGE_SIZE == 0 && np < WORD
    ensures var s := StealMem(first, last, np);
      && (s.addr == 0 || s.addr == first)
      && (StealRight(first, last, np) && s.addr != 0 ==>
            first + np * PAGE_SIZE <= last && s.first == first + np * PAGE_SIZE && Reserved(np) == np)
      && (StealRight(first, last, np) && s.addr == 0 ==> s.first == first)
      && (!StealRight(first, last, np) ==> s.addr == first && first + np * PAGE_SIZE > last)
  {
    StealExact(first, last, np);
    SizeWraps(first, np);
  }

  /** In frames, the mark moves by as many as were asked for, and stays within memory. */
  lemma Ahead(first: nat, n: nat, np: nat)
    requires first % PAGE_SIZE == 0 && 0 < first && first + np * PAGE_SIZE <= n * PAGE_SIZE
    ensures (first + np * PAGE_SIZE) / PAGE_SIZE == first / PAGE_SIZE + np && (first + np * PAGE_SIZE) % PAGE_SIZE == 0
    ensures 0 < first / PAGE_SIZE && first / PAGE_SIZE + np <= n
  {}

  lemma FirstFacts(free: seq<bool>, i: int, n: nat)
    requires FirstRun(free, i, n) && n > 0 && i < |free|
    ensures i >= 0 ==> RunAt(free, i, n)
    ensures i < 0 <==> forall j :: 0 <= j < |free| ==> !RunAt(free, j, n)
  {}
}
