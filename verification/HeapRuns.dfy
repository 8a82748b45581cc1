/**
 The heap's code in memory takes exactly the steps of the kmalloc machine, so
 that whatever holds in every run of the machine holds of the code.
 */
module HeapRuns {
  import P = Pagerefs
  import K = Kheap
  import M = Kmalloc

  type Tid(==) = nat

  datatype Run = Run(states: seq<M.State>, moves: seq<M.Move>, ptrs: seq<nat>) {
    ghost predicate IsRun() { M.IsRun(states, moves, ptrs) }

    /** The state it has come to. */
    ghost function Now(): (s: M.State)
      requires IsRun()
    {
      states[|moves|]
    }

    /** One step more. */
    function Then(s: M.State, m: M.Move, ptr: nat): (r: Run)
    {
      Run(states + [s], moves + [m], ptrs + [ptr])
    }

    lemma Extends(s: M.State, m: M.Move, ptr: nat)
      requires IsRun() && M.Next(Now(), s, m, ptr)
      ensures Then(s, m, ptr).IsRun() && Then(s, m, ptr).Now() == s
    {
      hide M.Next, M.Empty;
    }

    lemma Sound()
      requires IsRun()
      ensures M.HeapOk(Now()) && M.RefsOk(Now())
    {
      hide M.HeapOk, M.RefsOk;
      M.RunsValid(states, moves, ptrs, |moves|);
    }
  }

  lemma Reserves(s: M.State, s': M.State, t: Tid, slot: P.Slot, got: P.Slot)
    requires t in s.held && s.held[t].HavePage? && P.Next(s.refs, s'.refs, P.Reserve(t, slot), got)
    requires s' == s.(refs := s'.refs, held := s.held[t := M.Reserved(s.held[t], slot, got)])
    ensures M.Next(s, s', M.Reserve(t, slot, got), 0)
  {
    hide P.Next;
  }

  /** A thread waiting for a root's page is known to the pageref allocator, and the page is nobody's. */
  lemma Awaited(s: M.State, t: Tid, va: nat)
    requires M.RefsOk(s) && t in s.held && s.held[t].WaitRef? && (va == 0 || M.Fresh(s, va))
    ensures s.held[t].r in s.refs.status && s.refs.status[s.held[t].r].Waiting?
    ensures va == 0 || P.FreshPage(s.refs, va)
    ensures s.held[t].r.root < |s.refs.roots|
  {
    assert M.Awaits(s.held, t, s.held[t].r);
    assert P.IsWaiting(s.refs, s.held[t].r, t);
  }

  function Finished(s: M.State, refs: P.State, t: Tid, va: nat, got: P.Slot): (s': M.State)
    requires t in s.held && s.held[t].WaitRef? && s.held[t].r.root < |s.refs.roots|
  {
    var h := s.held[t];
    s.(refs := refs,
       held := s.held[t := if got.Slot? then M.HaveRef(h.addr, h.sz, h.b, h.r) else M.Giving(h.addr)],
       owner := if s.refs.roots[h.r.root].page == 0 && va != 0 then s.owner[va := M.Root(h.r.root)] else s.owner)
  }

  lemma Finishes(s: M.State, s': M.State, t: Tid, va: nat, got: P.Slot)
    requires t in s.held && s.held[t].WaitRef? && s.held[t].r.root < |s.refs.roots| && (va == 0 || M.Fresh(s, va))
    requires P.Next(s.refs, s'.refs, P.Finish(s.held[t].r, va), got) && s' == Finished(s, s'.refs, t, va, got)
    ensures M.Next(s, s', M.Finish(t, va, got), 0)
  {
    hide P.Next, M.Fresh;
  }

  /** What a thread about to install a page has in hand. */
  lemma Carrying(s: M.State, t: Tid)
    requires M.HeapOk(s) && M.RefsOk(s) && t in s.held && s.held[t].HaveRef?
    ensures var h := s.held[t];
      && h.b < K.NSIZES == |s.v.same| && h.addr > 0 && P.Aligned(h.addr)
      && P.IsOut(s.refs, h.r) && h.r !in s.v.pages && (forall q :: q in s.v.pages ==> s.v.pages[q].addr != h.addr)
      && K.Installed(s.v, h.r, h.addr, h.b).pages[h.r].free != []
  {
    var h := s.held[t];
    M.HeldFacts(s, t);
    M.CarriesIt(s.held, t);
    K.SizeFacts(h.b);
  }

  function Grown(s: M.State, t: Tid): (s': M.State)
    requires t in s.held && s.held[t].HaveRef? && s.held[t].b < K.NSIZES == |s.v.same|
    requires K.Installed(s.v, s.held[t].r, s.held[t].addr, s.held[t].b).pages[s.held[t].r].free != []
  {
    var h := s.held[t];
    M.State(K.Popped(K.Installed(s.v, h.r, h.addr, h.b), h.r),
            s.live[K.BlockAddr(K.Page(h.addr, h.b, []), K.Blocks(h.b) - 1) := M.Small(h.r, K.Blocks(h.b) - 1, h.sz)],
            s.held - {t}, s.owner[h.addr := M.Heap(h.r)], s.refs)
  }

  lemma Installs(s: M.State, t: Tid, ptr: nat)
    requires t in s.held && s.held[t].HaveRef? && s.held[t].b < K.NSIZES == |s.v.same|
    requires K.Installed(s.v, s.held[t].r, s.held[t].addr, s.held[t].b).pages[s.held[t].r].free != []
    requires ptr == K.BlockAddr(K.Page(s.held[t].addr, s.held[t].b, []), K.Blocks(s.held[t].b) - 1)
    ensures M.Next(s, Grown(s, t), M.Install(t), ptr)
  {
    hide K.Installed, K.Popped, K.Off;
  }

  /** A live pointer is to no free block. */
  lemma NotFreeYet(s: M.State, ptr: nat)
    requires M.HeapOk(s) && ptr in s.live
    ensures forall q, n :: K.IsBlock(s.v, ptr, q, n) ==> n !in s.v.pages[q].free
  {
    hide M.HeapOk, K.Off;
    forall q, n | K.IsBlock(s.v, ptr, q, n) ensures n !in s.v.pages[q].free {
      if n in s.v.pages[q].free { M.FreeNotLive(s, q, n); }
    }
  }

  function FreedState(s: M.State, v: K.View, refs: P.State, t: Tid, ptr: nat, res: K.Freeing): (s': M.State)
    requires ptr in s.live
  {
    match res
    case NotOurs =>
      s.(live := s.live - {ptr},
         owner := if s.live[ptr].Big? then s.owner - M.Region(ptr, s.live[ptr].n).Keys else s.owner)
    case GiveBack(page) =>
      M.State(v, s.live - {ptr}, s.held[t := M.Giving(page)], s.owner[page := M.Thread(t)], refs)
    case _ => s.(v := v, live := s.live - {ptr})
  }

  /** The block that subpage_kfree finds is the live one. */
  lemma SameBlock(s: M.State, ptr: nat, r: P.Ref, k: nat)
    requires M.HeapOk(s) && ptr in s.live && K.IsBlock(s.v, ptr, r, k)
    ensures s.live[ptr].Small? && s.live[ptr].r == r && s.live[ptr].k == k
  {
    hide M.HeapOk, K.Off, K.ViewOk;
    M.Parts(s);
    BlockOnPage(s.v, ptr, r, k);
    M.Finds(s, ptr, r);
    if s.live[ptr].k != k { K.BlocksDiffer(s.v, r, k, r, s.live[ptr].k); }
  }

  lemma BlockOnPage(v: K.View, ptr: nat, r: P.Ref, k: nat)
    requires K.IsBlock(v, ptr, r, k)
    ensures K.OnPage(v.pages[r], ptr)
  {
    K.OffFacts(v.pages[r].blk, k);
  }

  /** What subpage_kfree does is what the machine does. */
  lemma Freed(s: M.State, v: K.View, refs: P.State, t: Tid, ptr: nat, res: K.Freeing, r: P.Ref, k: nat)
    requires M.HeapOk(s) && M.RefsOk(s) && ptr in s.live && t !in s.held
    requires K.FreesBlock(s.v, v, s.refs, refs, ptr, res, r, k)
    ensures !res.BadAddress? && (res.NotOurs? <==> s.live[ptr].Big?)
    ensures res.BadRoots? <==> !exists s' :: M.Next(s, s', M.Free(t, ptr), 0)
    ensures !res.BadRoots? ==> M.Next(s, FreedState(s, v, refs, t, ptr, res), M.Free(t, ptr), 0)
  {
    hide M.HeapOk, M.RefsOk, M.Next, P.Next, P.CleanBefore, K.Pushed, K.Removed, K.Off;
    FreedBranch(s, v, refs, ptr, res, r, k);
    M.FreeSteps(s, t, ptr);
    if res.BadRoots? {
      SameBlock(s, ptr, r, k);
    } else {
      FreedNext(s, v, refs, t, ptr, res, r, k);
    }
  }

  lemma FreedBranch(s: M.State, v: K.View, refs: P.State, ptr: nat, res: K.Freeing, r: P.Ref, k: nat)
    requires M.HeapOk(s) && ptr in s.live && K.FreesBlock(s.v, v, s.refs, refs, ptr, res, r, k)
    ensures !res.BadAddress? && (res.NotOurs? <==> s.live[ptr].Big?)
  {
    hide M.HeapOk, P.Next, P.CleanBefore, K.Pushed, K.Removed, K.Off, K.OnPage;
    if s.live[ptr].Small? {
      M.Parts(s);
      M.BlockOf(s, ptr);
      BlockOnPage(s.v, ptr, s.live[ptr].r, s.live[ptr].k);
    } else if res.BadAddress? {
      var q :| q in s.v.pages && K.OnPage(s.v.pages[q], ptr);
      M.Finds(s, ptr, q);
    } else if !res.NotOurs? {
      SameBlock(s, ptr, r, k);
    }
  }

  lemma FreedNext(s: M.State, v: K.View, refs: P.State, t: Tid, ptr: nat, res: K.Freeing, r: P.Ref, k: nat)
    requires M.HeapOk(s) && ptr in s.live && t !in s.held && K.FreesBlock(s.v, v, s.refs, refs, ptr, res, r, k)
    requires !res.BadRoots? && !res.BadAddress? && (res.NotOurs? <==> s.live[ptr].Big?)
    ensures M.Next(s, FreedState(s, v, refs, t, ptr, res), M.Free(t, ptr), 0)
  {
    hide M.HeapOk, P.Next, K.Off, M.Region;
    if !res.NotOurs? {
      SameBlock(s, ptr, r, k);
      M.Parts(s);
      M.PageKnown(s.v, r);
    }
  }

  lemma Hits(s: M.State, s': M.State, sz: nat, r: P.Ref, ptr: nat)
    requires r in s.v.pages && s.v.pages[r].free != [] && sz < M.LARGEST && M.TypeFor(sz, s.v.pages[r].blk)
    requires ptr == K.BlockAddr(s.v.pages[r], s.v.pages[r].free[0])
    requires s' == s.(v := K.Popped(s.v, r), live := s.live[ptr := M.Small(r, s.v.pages[r].free[0], sz)])
    ensures M.Next(s, s', M.Hit(sz, r), ptr)
  {}

  /** A size has one block type. */
  lemma OneType(sz: nat, b: nat)
    requires M.TypeFor(sz, b)
    ensures forall c :: M.TypeFor(sz, c) ==> c == b
  {}

  /** The heap and the run that has led to its present state. */
  class Heap {
    const kernel: K.KernelHeap
    ghost var run: Run

    ghost predicate Valid()
      reads this, kernel
    {
      run.IsRun() && kernel.Valid() && kernel.v == run.Now().v && kernel.Refs() == run.Now().refs
    }

    constructor ()
      ensures Valid() && run.moves == [] && fresh(kernel)
    {
      kernel := new K.KernelHeap();
      new;
      run := Run([M.State(K.NoPages(), map[], map[], map[], kernel.Refs())], [], []);
    }

    /** kmalloc of a small size, up to where it returns a block or lets go of the lock to get a page. */
    method AllocSmall(sz: nat) returns (ptr: nat, ghost r: P.Ref)
      requires Valid() && sz < M.LARGEST
      modifies this, kernel
      ensures Valid()
      ensures ptr != 0 ==> run == old(run).Then(run.Now(), M.Hit(sz, r), ptr)
      ensures ptr == 0 ==>
        && run == old(run)
        && forall q :: q in run.Now().v.pages && M.TypeFor(sz, run.Now().v.pages[q].blk) ==>
             run.Now().v.pages[q].free == []
    {
      hide M.IsRun, M.Next, K.Rep, K.ViewOk, K.RefsOk;
      var b := K.BlockType(sz);
      ptr, r := kernel.AllocFromPages(b);
      if ptr != 0 {
        ghost var s := run.Now();
        ghost var s' := s.(v := K.Popped(s.v, r), live := s.live[ptr := M.Small(r, s.v.pages[r].free[0], sz)]);
        Hits(s, s', sz, r, ptr);
        run.Extends(s', M.Hit(sz, r), ptr);
        run := run.Then(s', M.Hit(sz, r), ptr);
      } else {
        OneType(sz, b);
      }
    }

    /** alloc_kpages has given a page. */
    ghost method GotPage(t: Tid, sz: nat, b: nat, addr: nat)
      requires Valid() && sz < M.LARGEST && M.TypeFor(sz, b) && t !in run.Now().held && M.Fresh(run.Now(), addr)
      modifies this
      ensures Valid() && run == old(run).Then(run.Now(), M.Miss(t, sz, b, addr), 0)
    {
      var s := run.Now();
      var s' := s.(held := s.held[t := M.HavePage(addr, sz, b)], owner := s.owner[addr := M.Thread(t)]);
      run.Extends(s', M.Miss(t, sz, b, addr), 0);
      run := run.Then(s', M.Miss(t, sz, b, addr), 0);
    }

    /** allocpageref up to where it returns or lets go of the lock. */
    method ReserveRef(ghost t: Tid) returns (slot: P.Slot, got: P.Slot)
      requires Valid() && t in run.Now().held && run.Now().held[t].HavePage?
      modifies this, kernel
      ensures Valid() && run == old(run).Then(run.Now(), M.Reserve(t, slot, got), 0)
    {
      hide M.IsRun, M.Next, K.Rep, K.ViewOk, K.RefsOk, P.Next;
      ghost var s := run.Now();
      slot, got := kernel.ReserveRef(t);
      ghost var s' := s.(refs := kernel.Refs(), held := s.held[t := M.Reserved(s.held[t], slot, got)]);
      Reserves(s, s', t, slot, got);
      run.Extends(s', M.Reserve(t, slot, got), 0);
      run := run.Then(s', M.Reserve(t, slot, got), 0);
    }

    /** The rest of it, with the page that alloc_kpages gave for the root, 0 if none. */
    method FinishRef(ghost t: Tid, r: P.Ref, va: nat) returns (got: P.Slot)
      requires Valid() && t in run.Now().held && run.Now().held[t].WaitRef? && r == run.Now().held[t].r
      requires va == 0 || M.Fresh(run.Now(), va)
      modifies this, kernel
      ensures Valid() && run == old(run).Then(run.Now(), M.Finish(t, va, got), 0)
    {
      hide M.IsRun, M.Next, M.HeapOk, M.RefsOk, K.Rep, K.ViewOk, K.RefsOk, P.Next, M.Fresh, P.FreshPage;
      ghost var s := run.Now();
      run.Sound();
      Awaited(s, t, va);
      got := kernel.FinishRef(r, va);
      ghost var s' := Finished(s, kernel.Refs(), t, va, got);
      Finishes(s, s', t, va, got);
      run.Extends(s', M.Finish(t, va, got), 0);
      run := run.Then(s', M.Finish(t, va, got), 0);
    }

    /** The page joins the heap, and its first block is handed out. */
    method InstallPage(ghost t: Tid, r: P.Ref, addr: nat, b: nat) returns (ptr: nat)
      requires Valid() && t in run.Now().held && run.Now().held[t].HaveRef?
      requires r == run.Now().held[t].r && addr == run.Now().held[t].addr && b == run.Now().held[t].b
      modifies this, kernel
      ensures Valid() && run == old(run).Then(run.Now(), M.Install(t), ptr)
    {
      hide M.IsRun, M.Next, M.HeapOk, M.RefsOk, K.Rep, K.ViewOk, K.RefsOk, P.Aligned, K.Installed, K.Popped;
      ghost var s := run.Now();
      run.Sound();
      Carrying(s, t);
      ptr := kernel.AllocFromNewPage(r, addr, b);
      ghost var s' := Grown(s, t);
      Installs(s, t, ptr);
      run.Extends(s', M.Install(t), ptr);
      run := run.Then(s', M.Install(t), ptr);
    }

    /** kmalloc of a large size, for which alloc_kpages has given pages. */
    ghost method Whole(sz: nat, addr: nat)
      requires Valid() && M.LARGEST <= sz && sz + M.PAGE_SIZE - 1 < M.WORD
      requires forall i :: 0 <= i < M.PagesFor(sz) ==> M.Fresh(run.Now(), M.PageAt(addr, i))
      modifies this
      ensures Valid() && run == old(run).Then(run.Now(), M.Whole(sz, addr), addr)
    {
      var s := run.Now();
      var n := M.PagesFor(sz);
      var s' := s.(live := s.live[addr := M.Big(n, sz)], owner := s.owner + M.Region(addr, n));
      run.Extends(s', M.Whole(sz, addr), addr);
      run := run.Then(s', M.Whole(sz, addr), addr);
    }

    /** free_kpages takes a page back. */
    ghost method GiveBack(t: Tid)
      requires Valid() && t in run.Now().held && run.Now().held[t].Giving?
      modifies this
      ensures Valid() && run == old(run).Then(run.Now(), M.GiveBack(t), 0)
    {
      var s := run.Now();
      var s' := s.(held := s.held - {t}, owner := s.owner - {s.held[t].addr});
      run.Extends(s', M.GiveBack(t), 0);
      run := run.Then(s', M.GiveBack(t), 0);
    }

    /** kfree of a live pointer.  It panics exactly where the machine has no step. */
    method Free(ghost t: Tid, ptr: nat) returns (res: K.Freeing)
      requires Valid() && ptr in run.Now().live && t !in run.Now().held
      modifies this, kernel
      ensures !res.BadAddress? && (res.NotOurs? <==> old(run.Now()).live[ptr].Big?)
      ensures res.BadRoots? <==> !exists s' :: M.Next(old(run.Now()), s', M.Free(t, ptr), 0)
      ensures !res.BadRoots? ==> Valid() && run == old(run).Then(run.Now(), M.Free(t, ptr), 0)
    {
      hide M.IsRun, M.Next, M.HeapOk, M.RefsOk, K.Rep, K.ViewOk, K.RefsOk, P.Next, K.Removed, K.Pushed, P.CleanBefore;
      ghost var s, refs := run.Now(), kernel.Refs();
      run.Sound();
      NotFreeYet(s, ptr);
      ghost var r, k;
      res, r, k := kernel.FreeBlock(ptr);
      Freed(s, kernel.v, kernel.Refs(), t, ptr, res, r, k);
      if !res.BadRoots? {
        ghost var s' := FreedState(s, kernel.v, kernel.Refs(), t, ptr, res);
        run.Extends(s', M.Free(t, ptr), 0);
        run := run.Then(s', M.Free(t, ptr), 0);
      }
    }

    /** In every state the code can reach, each page's free list in memory visits its free blocks, and ends. */
    lemma Walk(r: P.Ref, n: nat)
      requires Valid() && r in kernel.m.refs && n >= kernel.m.refs[r].nfree
      ensures r in kernel.v.pages && K.Walked(kernel.m, kernel.v.pages[r], r, n)
      ensures forall a :: a in K.FreeWalk(kernel.m, r, n) ==> a !in run.Now().live
    {
      hide M.IsRun, M.HeapOk, M.RefsOk, K.ViewOk, K.RefsOk, K.FreeWalk, K.Off;
      run.Sound();
      K.FreeListWalk(kernel.m, kernel.v, r, n);
      var s, p := run.Now(), run.Now().v.pages[r];
      forall j | 0 <= j < |p.free| ensures K.BlockAddr(p, p.free[j]) !in s.live { M.FreeNotLive(s, r, p.free[j]); }
    }
  }
}
