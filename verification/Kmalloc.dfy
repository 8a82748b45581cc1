/**
 kmalloc and kfree by any number of threads.  The heap lock makes each stretch
 of code between taking it and letting go one step; the lock is dropped while a
 page is allocated, while a pageref is allocated, and before a page is given
 back, so threads overtake each other there.  Pages come from alloc_kpages,
 which hands out pages that are nobody's.
 */
module Kmalloc {
  import P = Pagerefs
  import K = Kheap

  type Tid(==) = nat

  const PAGE_SIZE := 4096
  const LARGEST := 2048
  const WORD := 0x1_0000_0000

  // ---- Whole pages ----

  /** The number of pages kmalloc asks for, computed in 32-bit arithmetic. */
  function PagesFor(sz: nat): (n: nat)
  {
    ((sz + PAGE_SIZE - 1) % WORD) / PAGE_SIZE
  }

  /** They are enough exactly for requests that do not overflow when rounded up. */
  lemma PagesEnough(sz: nat)
    requires LARGEST <= sz < WORD
    ensures PagesFor(sz) * PAGE_SIZE >= sz <==> sz + PAGE_SIZE - 1 < WORD
    ensures (PagesFor(sz) - 1) * PAGE_SIZE < sz
    ensures sz + PAGE_SIZE - 1 >= WORD ==> PagesFor(sz) == 0
  {}

  /** A request of four gigabytes less one byte gets no page at all. */
  lemma HugeRequest()
    ensures PagesFor(WORD - 1) == 0
  {}

  // ---- The heap and its users ----

  /** What a thread in the middle of kmalloc or kfree holds. */
  datatype Stage =
    | HavePage(addr: nat, sz: nat, b: nat)
    | WaitRef(addr: nat, sz: nat, b: nat, r: P.Ref)    // a page, and a pageref whose root has no page yet
    | HaveRef(addr: nat, sz: nat, b: nat, r: P.Ref)    // a page and a pageref
    | Giving(addr: nat)                                // a page to give back

  /** A live pointer: block k of page r, or n whole pages; and the size asked for. */
  datatype Live = Small(r: P.Ref, k: nat, sz: nat) | Big(n: nat, sz: nat)

  /** owner says what each page in use is for: a heap page, a thread's, part of a big block, or a root's pagerefs. */
  datatype Owner = Heap(r: P.Ref) | Thread(t: Tid) | Part(ptr: nat) | Root(w: nat)

  datatype State = State(v: K.View, live: map<nat, Live>, held: map<Tid, Stage>, owner: map<nat, Owner>, refs: P.State)

  datatype Move =
    | Hit(sz: nat, r: P.Ref)               // a page of the right size has a free block
    | Miss(t: Tid, sz: nat, b: nat, addr: nat)   // none has; alloc_kpages gives a page
    | Reserve(t: Tid, slot: P.Slot, got: P.Slot)   // allocpageref up to where it returns or lets go of the lock
    | Finish(t: Tid, va: nat, got: P.Slot) // the rest of it, with the page that alloc_kpages gave, 0 if none
    | Install(t: Tid)                      // the page joins the heap, and its first block is handed out
    | Whole(sz: nat, addr: nat)            // a big request
    | Free(t: Tid, ptr: nat)               // kfree of a live pointer
    | GiveBack(t: Tid)                     // free_kpages of a page that nobody needs

  /** The block type for a size. */
  predicate TypeFor(sz: nat, b: nat)
  {
    b < K.NSIZES && sz <= K.Size(b) && (b == 0 || K.Size(b - 1) < sz)
  }

  function PageAt(ptr: nat, i: nat): (a: nat) { ptr + i * PAGE_SIZE }

  /** A page nobody uses. */
  predicate Fresh(s: State, a: nat) { a > 0 && P.Aligned(a) && a !in s.owner }

  /** Pages from ptr on, n of them. */
  function Region(ptr: nat, n: nat): (m: map<nat, Owner>)
  {
    if n == 0 then map[] else Region(ptr, n - 1)[PageAt(ptr, n - 1) := Part(ptr)]
  }

  ghost predicate HeldOk(s: State, t: Tid)
    requires t in s.held
  {
    var h := s.held[t];
    && h.addr > 0 && P.Aligned(h.addr) && h.addr in s.owner && s.owner[h.addr] == Thread(t)
    && (!h.Giving? ==> TypeFor(h.sz, h.b))
    && (h.HaveRef? ==> h.r !in s.v.pages)
  }

  ghost predicate LiveOk(s: State, ptr: nat)
    requires ptr in s.live
  {
    match s.live[ptr]
    case Small(r, k, sz) =>
      K.IsBlock(s.v, ptr, r, k) && k !in s.v.pages[r].free && sz <= K.Size(s.v.pages[r].blk)
    case Big(n, sz) =>
      && ptr > 0 && P.Aligned(ptr) && LARGEST <= sz && sz + PAGE_SIZE - 1 < WORD && 1 <= n == PagesFor(sz)
      && (forall i :: 0 <= i < n ==> PageAt(ptr, i) in s.owner && s.owner[PageAt(ptr, i)] == Part(ptr))
  }

  /** Every block of page r is free or live. */
  ghost predicate PageUsed(s: State, r: P.Ref)
    requires r in s.v.pages
  {
    var p := s.v.pages[r];
    && p.blk < K.NSIZES
    && (forall k {:trigger K.BlockAddr(p, k)} :: 0 <= k < K.Blocks(p.blk) && k !in p.free ==>
          K.BlockAddr(p, k) in s.live && s.live[K.BlockAddr(p, k)].Small? && s.live[K.BlockAddr(p, k)].r == r)
  }

  /** Every heap page is the heap's. */
  ghost predicate Owned(s: State)
  {
    forall r :: r in s.v.pages ==> s.v.pages[r].addr in s.owner && s.owner[s.v.pages[r].addr] == Heap(r)
  }

  ghost predicate Used(s: State) { forall r :: r in s.v.pages ==> PageUsed(s, r) }

  ghost predicate Lives(s: State) { forall ptr :: ptr in s.live ==> LiveOk(s, ptr) }

  ghost predicate Helds(s: State)
  {
    && (forall t :: t in s.held ==> HeldOk(s, t))
    && (forall t, u :: t in s.held && u in s.held && t != u && s.held[t].HaveRef? && s.held[u].HaveRef? ==>
          s.held[t].r != s.held[u].r)
  }

  ghost predicate HeapOk(s: State)
  {
    K.ViewOk(s.v) && K.AllUsed(s.v) && Owned(s) && Used(s) && Lives(s) && Helds(s)
  }

  ghost predicate Carries(held: map<Tid, Stage>, t: Tid, r: P.Ref)
  {
    t in held && held[t].HaveRef? && held[t].r == r
  }

  ghost predicate Carried(held: map<Tid, Stage>, r: P.Ref) { exists t :: Carries(held, t, r) }

  ghost predicate Awaits(held: map<Tid, Stage>, t: Tid, r: P.Ref)
  {
    t in held && held[t].WaitRef? && held[t].r == r
  }

  /** A pageref is out exactly if it is a heap page's or some thread has it in hand. */
  ghost predicate OutOk(s: State)
  {
    forall r :: P.IsOut(s.refs, r) <==> r in s.v.pages || Carried(s.held, r)
  }

  ghost predicate WaitOk(s: State)
  {
    forall r, t :: P.IsWaiting(s.refs, r, t) <==> Awaits(s.held, t, r)
  }

  /** The pages that hold pagerefs are their roots'. */
  ghost predicate RootsOwned(s: State)
  {
    forall w {:trigger s.refs.roots[w]} :: 0 <= w < |s.refs.roots| && s.refs.roots[w].page != 0 ==>
      s.refs.roots[w].page in s.owner && s.owner[s.refs.roots[w].page] == Root(w)
  }

  ghost predicate RefsOk(s: State) { P.Valid(s.refs) && OutOk(s) && WaitOk(s) && RootsOwned(s) }

  ghost predicate Valid(s: State) { HeapOk(s) && RefsOk(s) }

  function Reserved(h: Stage, slot: P.Slot, got: P.Slot): (h': Stage)
    requires h.HavePage?
  {
    if got.Slot? then HaveRef(h.addr, h.sz, h.b, got.r)
    else if slot.Slot? then WaitRef(h.addr, h.sz, h.b, slot.r)
    else Giving(h.addr)
  }

  /** One step; the pointer it returns, 0 if none.  There is none where an assertion fails. */
  ghost predicate Next(s: State, s': State, m: Move, ptr: nat)
  {
    match m
    case Hit(sz, r) =>
      && sz < LARGEST && r in s.v.pages && s.v.pages[r].free != [] && TypeFor(sz, s.v.pages[r].blk)
      && ptr == K.BlockAddr(s.v.pages[r], s.v.pages[r].free[0])
      && s' == s.(v := K.Popped(s.v, r), live := s.live[ptr := Small(r, s.v.pages[r].free[0], sz)])
    case Miss(t, sz, b, addr) =>
      && sz < LARGEST && TypeFor(sz, b) && t !in s.held && Fresh(s, addr) && ptr == 0
      && s' == s.(held := s.held[t := HavePage(addr, sz, b)], owner := s.owner[addr := Thread(t)])
    case Reserve(t, slot, got) =>
      && t in s.held && s.held[t].HavePage? && ptr == 0
      && P.Next(s.refs, s'.refs, P.Reserve(t, slot), got)
      && s' == s.(refs := s'.refs, held := s.held[t := Reserved(s.held[t], slot, got)])
    case Finish(t, va, got) =>
      && t in s.held && s.held[t].WaitRef? && ptr == 0 && (va == 0 || Fresh(s, va))
      && var h := s.held[t];
         && P.Next(s.refs, s'.refs, P.Finish(h.r, va), got)
         && s' == s.(refs := s'.refs,
                     held := s.held[t := if got.Slot? then HaveRef(h.addr, h.sz, h.b, h.r) else Giving(h.addr)],
                     owner := if s.refs.roots[h.r.root].page == 0 && va != 0 then s.owner[va := Root(h.r.root)]
                              else s.owner)
    case Install(t) =>
      && t in s.held && s.held[t].HaveRef?
      && var h := s.held[t];
         && h.b < K.NSIZES == |s.v.same|
         && ptr == K.BlockAddr(K.Page(h.addr, h.b, []), K.Blocks(h.b) - 1)
         && K.Installed(s.v, h.r, h.addr, h.b).pages[h.r].free != []
         && s' == State(K.Popped(K.Installed(s.v, h.r, h.addr, h.b), h.r),
                        s.live[ptr := Small(h.r, K.Blocks(h.b) - 1, h.sz)], s.held - {t}, s.owner[h.addr := Heap(h.r)],
                        s.refs)
    case Whole(sz, addr) =>
      && LARGEST <= sz && sz + PAGE_SIZE - 1 < WORD && ptr == addr
      && (forall i :: 0 <= i < PagesFor(sz) ==> Fresh(s, PageAt(addr, i)))
      && s' == s.(live := s.live[addr := Big(PagesFor(sz), sz)], owner := s.owner + Region(addr, PagesFor(sz)))
    case Free(t, p) =>
      && p in s.live && t !in s.held && ptr == 0
      && (match s.live[p]
          case Big(n, sz) => s' == s.(live := s.live - {p}, owner := s.owner - Region(p, n).Keys)
          case Small(r, k, sz) =>
            && r in s.v.pages && s.v.pages[r].blk < K.NSIZES == |s.v.same|
            && var v := K.Pushed(s.v, r, k);
               if |v.pages[r].free| < K.Blocks(s.v.pages[r].blk) then s' == s.(v := v, live := s.live - {p})
               else
                 && P.Next(s.refs, s'.refs, P.Free(r), P.NoSlot)
                 && s' == State(K.Removed(v, r), s.live - {p}, s.held[t := Giving(s.v.pages[r].addr)],
                                s.owner[s.v.pages[r].addr := Thread(t)], s'.refs))
    case GiveBack(t) =>
      && t in s.held && s.held[t].Giving? && ptr == 0
      && s' == s.(held := s.held - {t}, owner := s.owner - {s.held[t].addr})
  }

  // ---- Each step keeps the heap whole ----

  lemma Parts(s: State)
    requires HeapOk(s)
    ensures K.ViewOk(s.v) && K.AllUsed(s.v) && Owned(s) && Used(s) && Lives(s) && Helds(s)
  {}

  lemma PageKnown(v: K.View, r: P.Ref)
    requires K.ViewOk(v) && r in v.pages
    ensures K.PageOk(v.pages[r]) && |v.same| == K.NSIZES
  {}

  lemma BlockOf(s: State, p: nat)
    requires Lives(s) && p in s.live && s.live[p].Small?
    ensures K.IsBlock(s.v, p, s.live[p].r, s.live[p].k) && s.live[p].k !in s.v.pages[s.live[p].r].free
    ensures s.live[p].sz <= K.Size(s.v.pages[s.live[p].r].blk)
  {}

  lemma OneAligned(a: nat, b: nat)
    requires P.Aligned(a) && P.Aligned(b) && a <= b < a + PAGE_SIZE
    ensures a == b
  {}

  /** A block of a heap page does not start where a big block does. */
  lemma NoOverlap(s: State, r: P.Ref, k: nat, p: nat)
    requires HeapOk(s) && r in s.v.pages && p in s.live && s.live[p].Big? && s.v.pages[r].blk < K.NSIZES
    requires k < K.Blocks(s.v.pages[r].blk)
    ensures K.BlockAddr(s.v.pages[r], k) != p
  {
    hide K.ViewOk, K.AllUsed, Used, Helds, P.Aligned, K.Off;
    Parts(s);
    PageKnown(s.v, r);
    assert LiveOk(s, p);
    K.OffFacts(s.v.pages[r].blk, k);
    assert PageAt(p, 0) == p;
    if s.v.pages[r].addr <= p < s.v.pages[r].addr + PAGE_SIZE { OneAligned(s.v.pages[r].addr, p); }
  }

  /** Live pointers to different blocks are different. */
  lemma LiveElsewhere(s: State, r: P.Ref, k: nat, p: nat)
    requires HeapOk(s) && r in s.v.pages && s.v.pages[r].blk < K.NSIZES && k < K.Blocks(s.v.pages[r].blk) && p in s.live
    requires s.live[p].Small? ==> (s.live[p].r, s.live[p].k) != (r, k)
    ensures p != K.BlockAddr(s.v.pages[r], k)
  {
    hide HeapOk, K.ViewOk, K.Off;
    Parts(s);
    if s.live[p].Small? {
      BlockOf(s, p);
      K.BlocksDiffer(s.v, r, k, s.live[p].r, s.live[p].k);
    } else {
      NoOverlap(s, r, k, p);
    }
  }

  /** A block that is free is not live. */
  lemma FreeNotLive(s: State, r: P.Ref, k: nat)
    requires HeapOk(s) && r in s.v.pages && k in s.v.pages[r].free
    ensures s.v.pages[r].blk < K.NSIZES && k < K.Blocks(s.v.pages[r].blk)
    ensures K.BlockAddr(s.v.pages[r], k) !in s.live
  {
    hide HeapOk, K.ViewOk, K.Off;
    Parts(s);
    PageKnown(s.v, r);
    var p := K.BlockAddr(s.v.pages[r], k);
    if p in s.live {
      if s.live[p].Small? { BlockOf(s, p); }
      LiveElsewhere(s, r, k, p);
    }
  }

  /** Live pointers and pages that a step does not touch. */
  lemma OtherLive(s: State, s': State, p: nat)
    requires Lives(s) && p in s.live && p in s'.live && s'.live[p] == s.live[p]
    requires s.live[p].Small? && s.live[p].r in s.v.pages ==>
      s.live[p].r in s'.v.pages && s'.v.pages[s.live[p].r] == s.v.pages[s.live[p].r]
    requires s.live[p].Big? ==>
      forall i :: 0 <= i < s.live[p].n && PageAt(p, i) in s.owner && s.owner[PageAt(p, i)] == Part(p) ==>
        PageAt(p, i) in s'.owner && s'.owner[PageAt(p, i)] == Part(p)
    ensures LiveOk(s', p)
  {}

  lemma OtherPage(s: State, s': State, q: P.Ref)
    requires Used(s) && q in s.v.pages && q in s'.v.pages && s'.v.pages[q] == s.v.pages[q]
    requires forall p :: p in s.live && s.live[p].Small? && s.live[p].r == q ==> p in s'.live && s'.live[p] == s.live[p]
    ensures PageUsed(s', q)
  {}

  lemma OtherHeld(s: State, s': State, t: Tid)
    requires Helds(s) && t in s.held && t in s'.held && s'.held[t] == s.held[t]
    requires s.held[t].addr in s.owner && s.owner[s.held[t].addr] == Thread(t) ==>
      s.held[t].addr in s'.owner && s'.owner[s.held[t].addr] == Thread(t)
    requires s.held[t].HaveRef? ==> s.held[t].r !in s'.v.pages || s.held[t].r in s.v.pages
    ensures HeldOk(s', t)
  {}

  /** What a change of the free list of page r has to show. */
  lemma FreeChange(s: State, s': State, r: P.Ref, ptr: nat)
    requires HeapOk(s) && r in s.v.pages && r in s'.v.pages && K.ViewOk(s'.v) && K.AllUsed(s'.v)
    requires s'.v.pages == s.v.pages[r := s.v.pages[r].(free := s'.v.pages[r].free)]
    requires s'.held == s.held && s'.owner == s.owner
    requires forall p :: p != ptr ==> (p in s'.live <==> p in s.live) && (p in s.live ==> s'.live[p] == s.live[p])
    requires ptr in s.live ==> s.live[ptr].Small? && s.live[ptr].r == r
    requires ptr in s'.live ==> LiveOk(s', ptr)
    requires PageUsed(s', r)
    requires forall p :: p in s.live && s.live[p].Small? && s.live[p].r == r && p != ptr ==>
      s.live[p].k !in s'.v.pages[r].free
    ensures HeapOk(s')
  {
    hide HeapOk, K.ViewOk, K.AllUsed, K.Off;
    Parts(s);
    forall p | p in s'.live ensures LiveOk(s', p) {
      if p != ptr {
        assert LiveOk(s, p);
        if !(s.live[p].Small? && s.live[p].r == r) { OtherLive(s, s', p); }
      }
    }
    forall q | q in s'.v.pages ensures PageUsed(s', q) { if q != r { OtherPage(s, s', q); } }
    forall t | t in s'.held ensures HeldOk(s', t) { OtherHeld(s, s', t); }
    Assemble(s');
  }

  lemma Assemble(s: State)
    requires K.ViewOk(s.v) && K.AllUsed(s.v) && Owned(s) && Used(s) && Lives(s) && Helds(s)
    ensures HeapOk(s)
  {}

  lemma HitKeeps(s: State, s': State, sz: nat, r: P.Ref, ptr: nat)
    requires HeapOk(s) && Next(s, s', Hit(sz, r), ptr)
    ensures HeapOk(s')
  {
    hide HeapOk, K.ViewOk, K.AllUsed, K.Off, PageUsed, Used, Helds, Owned, P.Next, K.Removed;
    Parts(s);
    PageKnown(s.v, r);
    var pg := s.v.pages[r];
    FreeNotLive(s, r, pg.free[0]);
    K.PoppedOk(s.v, r);
    UsedElse(s.v, r);
    PoppedUsed(s, s', r, ptr);
    forall p | p in s.live && s.live[p].Small? && s.live[p].r == r ensures s.live[p].k !in s'.v.pages[r].free {
      BlockOf(s, p);
    }
    FreeChange(s, s', r, ptr);
  }

  lemma UsedElse(v: K.View, r: P.Ref)
    requires K.ViewOk(v) && K.AllUsed(v)
    ensures forall q :: q in v.pages && q != r ==>
      v.pages[q].blk < K.NSIZES && |v.pages[q].free| < K.Blocks(v.pages[q].blk)
  {}

  lemma PoppedUsed(s: State, s': State, r: P.Ref, ptr: nat)
    requires Used(s) && r in s.v.pages && s.v.pages[r].free != [] && s'.v == K.Popped(s.v, r)
    requires s.v.pages[r].blk < K.NSIZES && ptr == K.BlockAddr(s.v.pages[r], s.v.pages[r].free[0])
    requires forall p :: p in s.live && p != ptr ==> p in s'.live && s'.live[p] == s.live[p]
    requires ptr in s'.live && s'.live[ptr].Small? && s'.live[ptr].r == r
    ensures PageUsed(s', r)
  {
    assert PageUsed(s, r);
    var pg, pg' := s.v.pages[r], s'.v.pages[r];
    forall k | 0 <= k < K.Blocks(pg.blk) && k !in pg'.free
      ensures K.BlockAddr(pg', k) in s'.live && s'.live[K.BlockAddr(pg', k)].Small?
      ensures s'.live[K.BlockAddr(pg', k)].r == r
    {
      assert K.BlockAddr(pg', k) == K.BlockAddr(pg, k);
      if k in pg.free { assert k == pg.free[0]; }
    }
  }

  lemma PushedUsed(s: State, s': State, r: P.Ref, k: nat, ptr: nat)
    requires Used(s) && r in s.v.pages && s'.v == K.Pushed(s.v, r, k) && s.v.pages[r].blk < K.NSIZES
    requires ptr == K.BlockAddr(s.v.pages[r], k) && k < K.Blocks(s.v.pages[r].blk)
    requires forall p :: p in s.live && p != ptr ==> p in s'.live && s'.live[p] == s.live[p]
    ensures PageUsed(s', r)
  {
    assert PageUsed(s, r);
    var pg, pg' := s.v.pages[r], s'.v.pages[r];
    forall j | 0 <= j < K.Blocks(pg.blk) && j !in pg'.free
      ensures K.BlockAddr(pg', j) in s'.live && s'.live[K.BlockAddr(pg', j)].Small?
      ensures s'.live[K.BlockAddr(pg', j)].r == r
    {
      assert K.BlockAddr(pg', j) == K.BlockAddr(pg, j);
      assert pg'.free[0] == k;
      K.Apart(pg, j, k);
    }
  }

  lemma KeptKeeps(s: State, s': State, t: Tid, p: nat)
    requires HeapOk(s) && Next(s, s', Free(t, p), 0) && s.live[p].Small?
    requires |s.v.pages[s.live[p].r].free| + 1 < K.Blocks(s.v.pages[s.live[p].r].blk)
    ensures HeapOk(s')
  {
    hide HeapOk, K.ViewOk, K.AllUsed, K.Off, PageUsed, Used, Helds, Owned;
    Parts(s);
    BlockOf(s, p);
    var r, k := s.live[p].r, s.live[p].k;
    PageKnown(s.v, r);
    K.PushedOk(s.v, r, k);
    PushedAllUsed(s.v, r, k);
    PushedUsed(s, s', r, k, p);
    forall q | q in s.live && s.live[q].Small? && s.live[q].r == r && q != p
      ensures s.live[q].k !in s'.v.pages[r].free
    {
      BlockOf(s, q);
    }
    FreeChange(s, s', r, p);
  }

  lemma PushedAllUsed(v: K.View, r: P.Ref, k: nat)
    requires K.AllUsed(v) && r in v.pages && v.pages[r].blk < K.NSIZES
    requires |v.pages[r].free| + 1 < K.Blocks(v.pages[r].blk)
    ensures K.AllUsed(K.Pushed(v, r, k))
  {}

  // Steps in which a page changes hands.

  /** No live pointer points into a page that is neither the heap's nor part of a big block. */
  lemma NotLiveHere(s: State, a: nat, p: nat)
    requires HeapOk(s) && P.Aligned(a) && p in s.live && a <= p < a + PAGE_SIZE
    ensures a in s.owner && !s.owner[a].Thread?
  {
    hide HeapOk, K.ViewOk, K.AllUsed, P.Aligned, K.Off;
    Parts(s);
    assert LiveOk(s, p);
    if s.live[p].Small? {
      var pg := s.v.pages[s.live[p].r];
      PageKnown(s.v, s.live[p].r);
      K.OffFacts(pg.blk, s.live[p].k);
      if pg.addr != a { K.AlignedApart(pg.addr, a); }
    } else {
      assert PageAt(p, 0) == p;
      OneAligned(a, p);
    }
  }

  /** Pages other than those a step takes or gives stay whose they were. */
  ghost predicate OwnersKept(s: State, s': State, mine: set<nat>)
  {
    forall a :: a in s.owner && a !in mine ==> a in s'.owner && s'.owner[a] == s.owner[a]
  }

  /** A thread gets a page, a pageref, or gives a page up: heap and live pointers are untouched. */
  lemma HeldChange(s: State, s': State, t: Tid, mine: set<nat>)
    requires HeapOk(s) && s'.v == s.v && s'.live == s.live && OwnersKept(s, s', mine)
    requires forall a :: a in mine && a in s.owner ==> s.owner[a] == Thread(t)
    requires forall u :: u != t ==> (u in s'.held <==> u in s.held) && (u in s.held ==> s'.held[u] == s.held[u])
    requires t in s'.held ==> HeldOk(s', t)
    requires t in s'.held && s'.held[t].HaveRef? ==>
      forall u :: u in s.held && u != t && s.held[u].HaveRef? ==> s.held[u].r != s'.held[t].r
    ensures HeapOk(s')
  {
    hide HeapOk, K.ViewOk, K.AllUsed, K.Off;
    Parts(s);
    forall p | p in s'.live ensures LiveOk(s', p) { OtherLive(s, s', p); }
    forall q | q in s'.v.pages ensures PageUsed(s', q) { OtherPage(s, s', q); }
    forall u | u in s'.held ensures HeldOk(s', u) { if u != t { OtherHeld(s, s', u); } }
    Assemble(s');
  }

  lemma HeldKeeps(s: State, s': State, m: Move)
    requires HeapOk(s) && Next(s, s', m, 0) && (m.Miss? || m.GiveBack?)
    ensures HeapOk(s')
  {
    hide HeapOk, K.ViewOk, K.AllUsed, K.Off, P.Aligned, P.Next;
    Parts(s);
    match m
    case Miss(t, sz, b, addr) => HeldChange(s, s', t, {addr});
    case GiveBack(t) => assert HeldOk(s, t); HeldChange(s, s', t, {s.held[t].addr});
  }

  lemma RefKeeps(s: State, s': State, m: Move)
    requires HeapOk(s) && Next(s, s', m, 0) && (m.Reserve? || m.Finish?)
    requires m.got.Slot? ==> m.got.r !in s.v.pages && !Carried(s.held, m.got.r)
    requires m.Finish? && m.got.Slot? ==> m.t in s.held && s.held[m.t].WaitRef? && m.got.r == s.held[m.t].r
    ensures HeapOk(s')
  {
    hide HeapOk, K.ViewOk, K.AllUsed, K.Off, P.Aligned, P.Next, Carried, Helds;
    Parts(s);
    HeldKnown(s, m.t);
    if m.got.Slot? { NotCarried(s.held, m.got.r); }
    HeldChange(s, s', m.t, if m.Finish? then {m.va} - s.owner.Keys else {});
  }

  lemma NotCarried(held: map<Tid, Stage>, r: P.Ref)
    requires !Carried(held, r)
    ensures forall u :: u in held && held[u].HaveRef? ==> held[u].r != r
  {
    forall u | u in held && held[u].HaveRef? ensures held[u].r != r { assert !Carries(held, u, r); }
  }

  lemma WholeKeeps(s: State, s': State, sz: nat, addr: nat)
    requires HeapOk(s) && Next(s, s', Whole(sz, addr), addr)
    ensures HeapOk(s')
  {
    hide HeapOk, K.ViewOk, K.AllUsed, K.Off, P.Aligned, PagesFor, Region, PageAt, LiveOk, PageUsed, HeldOk;
    Parts(s);
    WholeFresh(s, s', sz, addr);
    forall p | p in s'.live ensures LiveOk(s', p) { if p != addr { OtherLive(s, s', p); } }
    forall q | q in s'.v.pages ensures PageUsed(s', q) { OtherPage(s, s', q); }
    forall u | u in s'.held ensures HeldOk(s', u) { OtherHeld(s, s', u); }
    Assemble(s');
  }

  lemma WholeFresh(s: State, s': State, sz: nat, addr: nat)
    requires HeapOk(s) && Next(s, s', Whole(sz, addr), addr)
    ensures addr !in s.live && LiveOk(s', addr) && OwnersKept(s, s', {})
  {
    hide HeapOk, K.ViewOk, K.AllUsed, K.Off, P.Aligned, PagesFor, Region;
    assert PagesFor(sz) >= 1 by { PagesEnough(sz); }
    assert Fresh(s, PageAt(addr, 0));
    RegionOf(addr, PagesFor(sz));
    if addr in s.live { NotLiveHere(s, addr, addr); }
    assert forall i :: 0 <= i < PagesFor(sz) ==> PageAt(addr, i) !in s.owner;
  }

  lemma {:induction false} RegionOf(ptr: nat, n: nat)
    ensures forall a :: a in Region(ptr, n) ==> exists i :: 0 <= i < n && a == PageAt(ptr, i)
    ensures forall i :: 0 <= i < n ==> PageAt(ptr, i) in Region(ptr, n) && Region(ptr, n)[PageAt(ptr, i)] == Part(ptr)
  {
    hide PageAt;
    if n == 0 {
    } else {
      RegionOf(ptr, n - 1);
    }
  }

  lemma BigFreeKeeps(s: State, s': State, t: Tid, p: nat)
    requires HeapOk(s) && Next(s, s', Free(t, p), 0) && s.live[p].Big?
    ensures HeapOk(s')
  {
    hide HeapOk, K.ViewOk, K.AllUsed, K.Off, P.Aligned, PagesFor, PageUsed, HeldOk, Region;
    Parts(s);
    assert LiveOk(s, p);
    RegionOf(p, s.live[p].n);
    assert forall a :: a in Region(p, s.live[p].n) ==> a in s.owner && s.owner[a] == Part(p);
    forall q | q in s'.live ensures LiveOk(s', q) { OtherLive(s, s', q); }
    forall q | q in s'.v.pages ensures PageUsed(s', q) { OtherPage(s, s', q); }
    forall u | u in s'.held ensures HeldOk(s', u) { OtherHeld(s, s', u); }
    Assemble(s');
  }

  /** Installing a new page. */
  lemma InstallKeeps(s: State, s': State, t: Tid, ptr: nat)
    requires HeapOk(s) && Next(s, s', Install(t), ptr)
    ensures HeapOk(s')
  {
    hide HeapOk, K.ViewOk, K.AllUsed, K.Off, P.Aligned, LiveOk, PageUsed, HeldOk;
    Parts(s);
    var h := s.held[t];
    HeldFacts(s, t);
    InstallView(s, s', t, ptr);
    InstallBlock(s, s', t, ptr);
    forall p | p in s'.live ensures LiveOk(s', p) { if p != ptr { OtherLive(s, s', p); } }
    forall q | q in s'.v.pages ensures PageUsed(s', q) { if q != h.r { OtherPage(s, s', q); } }
    forall u | u in s'.held ensures HeldOk(s', u) { OtherHeld(s, s', u); }
    Assemble(s');
  }

  lemma HeldKnown(s: State, t: Tid)
    requires Helds(s) && t in s.held
    ensures HeldOk(s, t)
  {}

  lemma HeldFacts(s: State, t: Tid)
    requires Helds(s) && t in s.held && s.held[t].HaveRef?
    ensures var h := s.held[t];
      && h.addr in s.owner && s.owner[h.addr] == Thread(t) && h.addr > 0 && P.Aligned(h.addr)
      && h.r !in s.v.pages && TypeFor(h.sz, h.b)
  {}

  lemma InstallView(s: State, s': State, t: Tid, ptr: nat)
    requires HeapOk(s) && Next(s, s', Install(t), ptr)
    ensures var h := s.held[t];
      && K.ViewOk(s'.v) && K.AllUsed(s'.v) && h.r in s'.v.pages
      && s'.v.pages == s.v.pages[h.r := K.Page(h.addr, h.b, K.Descending(K.Blocks(h.b))[1..])] && K.Blocks(h.b) >= 2
  {
    hide HeapOk, K.ViewOk, K.AllUsed, K.Off, P.Aligned, Used, Lives, K.Installed, K.Popped;
    Parts(s);
    HeldKnown(s, t);
    var h := s.held[t];
    PageAdded(s.v, h.r, h.addr, h.b);
  }

  lemma PageAdded(v: K.View, r: P.Ref, addr: nat, b: nat)
    requires K.ViewOk(v) && K.AllUsed(v) && r !in v.pages && b < K.NSIZES == |v.same| && addr > 0 && P.Aligned(addr)
    requires forall q :: q in v.pages ==> v.pages[q].addr != addr
    ensures var v1 := K.Installed(v, r, addr, b);
      && r in v1.pages && v1.pages[r].free != [] && K.ViewOk(K.Popped(v1, r)) && K.AllUsed(K.Popped(v1, r))
      && K.Popped(v1, r).pages == v.pages[r := K.Page(addr, b, K.Descending(K.Blocks(b))[1..])] && K.Blocks(b) >= 2
  {
    hide K.ViewOk, K.AllUsed, P.Aligned;
    K.SizeFacts(b);
    var v1 := K.Installed(v, r, addr, b);
    K.InstalledOk(v, r, addr, b);
    UsedElse(v, r);
    K.PoppedOk(v1, r);
  }

  lemma InstallBlock(s: State, s': State, t: Tid, ptr: nat)
    requires HeapOk(s) && Next(s, s', Install(t), ptr)
    ensures ptr !in s.live && ptr in s'.live && LiveOk(s', ptr) && s.held[t].r in s'.v.pages
    ensures PageUsed(s', s.held[t].r)
  {
    hide HeapOk, K.ViewOk, K.AllUsed, K.Off, P.Aligned;
    Parts(s);
    HeldKnown(s, t);
    InstallView(s, s', t, ptr);
    var h := s.held[t];
    var n := K.Blocks(h.b);
    K.OffFacts(h.b, n - 1);
    if ptr in s.live { NotLiveHere(s, h.addr, ptr); }
    var free := s'.v.pages[h.r].free;
    forall k | 0 <= k < n ensures k in free <==> k != n - 1 {
      if k != n - 1 { assert K.Descending(n)[n - 1 - k] == k; assert free[n - 2 - k] == k; }
    }
  }

  /** When all other blocks of a page are free, it has one live block. */
  lemma LastBlock(s: State, p: nat, q: nat)
    requires HeapOk(s) && p in s.live && s.live[p].Small? && q in s.live && s.live[q].Small?
    requires s.live[p].r == s.live[q].r
    requires s.live[p].r in s.v.pages && s.v.pages[s.live[p].r].blk < K.NSIZES
    requires |s.v.pages[s.live[p].r].free| + 1 == K.Blocks(s.v.pages[s.live[p].r].blk)
    ensures p == q
  {
    hide HeapOk, K.ViewOk, K.AllUsed, K.Off;
    Parts(s);
    BlockOf(s, p);
    BlockOf(s, q);
    var pg := s.v.pages[s.live[p].r];
    PageKnown(s.v, s.live[p].r);
    if s.live[p].k != s.live[q].k { K.AtMost([s.live[p].k, s.live[q].k] + pg.free, K.Blocks(pg.blk)); }
  }

  lemma PageDropped(v: K.View, r: P.Ref, k: nat)
    requires K.ViewOk(v) && K.AllUsed(v) && r in v.pages && v.pages[r].blk < K.NSIZES == |v.same|
    requires k < K.Blocks(v.pages[r].blk) && k !in v.pages[r].free
    ensures var v1 := K.Removed(K.Pushed(v, r, k), r);
            K.ViewOk(v1) && K.AllUsed(v1) && v1.pages == v.pages - {r}
  {
    hide K.ViewOk;
    K.PushedOk(v, r, k);
    var v1 := K.Pushed(v, r, k);
    K.RemovedOk(v1, r);
    assert v1.pages - {r} == v.pages - {r};
  }

  lemma LastFreeKeeps(s: State, s': State, t: Tid, p: nat)
    requires HeapOk(s) && Next(s, s', Free(t, p), 0) && s.live[p].Small?
    requires |s.v.pages[s.live[p].r].free| + 1 >= K.Blocks(s.v.pages[s.live[p].r].blk)
    ensures HeapOk(s')
  {
    hide HeapOk, K.ViewOk, K.AllUsed, K.Off, P.Aligned, LiveOk, PageUsed, K.Removed;
    Parts(s);
    BlockOf(s, p);
    var r, k := s.live[p].r, s.live[p].k;
    PageKnown(s.v, r);
    PageDropped(s.v, r, k);
    UsedAt(s.v, r);
    forall q | q in s'.live ensures LiveOk(s', q) {
      if s.live[q].Small? && s.live[q].r == r { LastBlock(s, p, q); }
      OtherLive(s, s', q);
    }
    forall q | q in s'.v.pages ensures PageUsed(s', q) { OtherPage(s, s', q); }
    forall u | u in s'.held ensures HeldOk(s', u) { if u != t { OtherHeld(s, s', u); } }
    LastOwned(s, s', t, p);
    Assemble(s');
  }

  lemma UsedAt(v: K.View, r: P.Ref)
    requires K.AllUsed(v) && r in v.pages && v.pages[r].blk < K.NSIZES
    ensures |v.pages[r].free| < K.Blocks(v.pages[r].blk)
  {}

  lemma LastOwned(s: State, s': State, t: Tid, p: nat)
    requires Owned(s) && K.ViewOk(s.v) && p in s.live && s.live[p].Small? && s.live[p].r in s.v.pages
    requires s'.v.pages == s.v.pages - {s.live[p].r}
    requires s'.owner == s.owner[s.v.pages[s.live[p].r].addr := Thread(t)]
    ensures Owned(s')
  {}

  // ---- And the pagerefs ----

  /** A step in which pagerefs do not change hands. */
  lemma RefsSame(s: State, s': State)
    requires RefsOk(s) && s'.refs == s.refs && s'.v.pages.Keys == s.v.pages.Keys
    requires forall t, r :: Carries(s'.held, t, r) <==> Carries(s.held, t, r)
    requires forall t, r :: Awaits(s'.held, t, r) <==> Awaits(s.held, t, r)
    requires forall a :: a in s.owner && s.owner[a].Root? ==> a in s'.owner && s'.owner[a] == s.owner[a]
    ensures RefsOk(s')
  {}

  lemma HeldOwner(s: State, t: Tid)
    requires HeapOk(s) && t in s.held
    ensures s.held[t].addr in s.owner && s.owner[s.held[t].addr] == Thread(t)
    ensures s.held[t].HaveRef? ==> s.held[t].r !in s.v.pages
  {}

  lemma SimpleRefs(s: State, s': State, m: Move, ptr: nat)
    requires Valid(s) && Next(s, s', m, ptr) && (m.Hit? || m.Miss? || m.Whole? || m.GiveBack?)
    ensures RefsOk(s')
  {
    hide HeapOk, RefsOk, K.Off, P.Aligned, Region;
    match m
    case Hit(sz, r) => RefsSame(s, s');
    case Miss(t, sz, b, addr) => RefsSame(s, s');
    case Whole(sz, addr) =>
      RegionOf(addr, PagesFor(sz));
      RefsSame(s, s');
    case GiveBack(t) =>
      HeldOwner(s, t);
      RefsSame(s, s');
  }

  lemma FreeRefs(s: State, s': State, t: Tid, p: nat)
    requires Valid(s) && Next(s, s', Free(t, p), 0)
    requires s.live[p].Small? ==> |s.v.pages[s.live[p].r].free| + 1 < K.Blocks(s.v.pages[s.live[p].r].blk)
    ensures RefsOk(s')
  {
    hide HeapOk, RefsOk, K.Off, Region, P.Next, K.Removed;
    if s.live[p].Big? { BigOwner(s, p); }
    RefsSame(s, s');
  }

  lemma BigOwner(s: State, p: nat)
    requires HeapOk(s) && p in s.live && s.live[p].Big?
    ensures forall a :: a in Region(p, s.live[p].n) ==> a in s.owner && s.owner[a] == Part(p)
  {
    hide K.ViewOk, K.AllUsed, Region, PageAt, PagesFor, P.Aligned;
    assert LiveOk(s, p);
    RegionOf(p, s.live[p].n);
  }

  /** What the pageref allocator's step says about the entry it returns. */
  lemma GotFresh(s: State, s': P.State, m: P.Move, got: P.Slot)
    requires RefsOk(s) && P.Next(s.refs, s', m, got) && got.Slot?
    ensures got.r !in s.v.pages && !Carried(s.held, got.r)
  {}

  /** The pagerefs out and waited for, after a step of the pageref allocator. */
  lemma RefsChange(s: State, s': State, m: P.Move, got: P.Slot)
    requires RefsOk(s) && P.Next(s.refs, s'.refs, m, got)
    requires forall r :: r in s'.v.pages || Carried(s'.held, r) <==>
               got == P.Slot(r) || ((r in s.v.pages || Carried(s.held, r)) && m != P.Free(r))
    requires forall r, u :: Awaits(s'.held, u, r) <==>
               || (m == P.Reserve(u, P.Slot(r)) && got.NoSlot?) || (Awaits(s.held, u, r) && !(m.Finish? && m.r == r))
    requires forall a :: a in s.owner && s.owner[a].Root? ==> a in s'.owner && s'.owner[a] == s.owner[a]
    requires m.Finish? && m.r.root < |s.refs.roots| && s.refs.roots[m.r.root].page == 0 && m.va != 0 ==>
               m.va in s'.owner && s'.owner[m.va] == Root(m.r.root)
    ensures RefsOk(s')
  {
    hide P.Valid, P.Next, P.IsOut, P.IsWaiting, Carried, Awaits;
    P.NextKeeps(s.refs, s'.refs, m, got);
    forall r ensures P.IsOut(s'.refs, r) <==> r in s'.v.pages || Carried(s'.held, r) {
      P.OutAfter(s.refs, s'.refs, m, got, r);
    }
    forall r, u ensures P.IsWaiting(s'.refs, r, u) <==> Awaits(s'.held, u, r) {
      P.WaitingAfter(s.refs, s'.refs, m, got, r, u);
    }
    forall w | 0 <= w < |s'.refs.roots| && s'.refs.roots[w].page != 0
      ensures s'.refs.roots[w].page in s'.owner && s'.owner[s'.refs.roots[w].page] == Root(w)
    {
      RootKnown(s.refs, s'.refs, m, got, w);
    }
  }

  lemma RootKnown(s: P.State, s': P.State, m: P.Move, got: P.Slot, w: nat)
    requires P.Valid(s) && P.Next(s, s', m, got) && w < |s'.roots|
    ensures |s.roots| == |s'.roots| == P.ROOTS
    ensures s'.roots[w].page == if m.Finish? && m.r.root == w && s.roots[w].page == 0 then m.va else s.roots[w].page
  {}

  /** Only t's stage changes. */
  ghost predicate OnlyStage(held: map<Tid, Stage>, held': map<Tid, Stage>, t: Tid)
  {
    forall u :: u != t ==> (u in held <==> u in held') && (u in held ==> held[u] == held'[u])
  }

  lemma CarriedBut(held: map<Tid, Stage>, held': map<Tid, Stage>, t: Tid, r: P.Ref)
    requires OnlyStage(held, held', t) && !Carries(held, t, r)
    ensures Carried(held', r) <==> Carries(held', t, r) || Carried(held, r)
  {
    if Carried(held', r) && !Carries(held', t, r) {
      var u :| Carries(held', u, r);
      assert Carries(held, u, r);
    }
    if Carried(held, r) {
      var u :| Carries(held, u, r);
      assert Carries(held', u, r);
    }
  }

  lemma ReserveRefs(s: State, s': State, t: Tid, slot: P.Slot, got: P.Slot)
    requires Valid(s) && Next(s, s', Reserve(t, slot, got), 0)
    ensures RefsOk(s')
  {
    hide HeapOk, RefsOk, P.Next, Carried;
    forall r ensures Carried(s'.held, r) <==> got == P.Slot(r) || Carried(s.held, r) {
      CarriedBut(s.held, s'.held, t, r);
    }
    ReserveGot(s.refs, s'.refs, t, slot, got);
    RefsChange(s, s', P.Reserve(t, slot), got);
  }

  lemma ReserveGot(s: P.State, s': P.State, t: Tid, slot: P.Slot, got: P.Slot)
    requires P.Next(s, s', P.Reserve(t, slot), got)
    ensures got.Slot? ==> slot == got
  {}

  lemma FinishRefs(s: State, s': State, t: Tid, va: nat, got: P.Slot)
    requires Valid(s) && Next(s, s', Finish(t, va, got), 0)
    ensures RefsOk(s')
  {
    hide HeapOk, RefsOk, P.Next, Carried, P.Aligned;
    var h := s.held[t];
    FinishGot(s.refs, s'.refs, h.r, va, got);
    AwaitsOne(s, t);
    forall r ensures Carried(s'.held, r) <==> got == P.Slot(r) || Carried(s.held, r) {
      CarriedBut(s.held, s'.held, t, r);
    }
    forall r, u ensures Awaits(s'.held, u, r) <==> Awaits(s.held, u, r) && r != h.r {}
    RefsChange(s, s', P.Finish(h.r, va), got);
  }

  lemma FinishGot(s: P.State, s': P.State, r: P.Ref, va: nat, got: P.Slot)
    requires P.Next(s, s', P.Finish(r, va), got)
    ensures got.Slot? ==> got.r == r
  {}

  lemma AwaitsOne(s: State, t: Tid)
    requires RefsOk(s) && t in s.held && s.held[t].WaitRef?
    ensures forall u :: Awaits(s.held, u, s.held[t].r) ==> u == t
  {
    forall u | Awaits(s.held, u, s.held[t].r) ensures u == t {
      assert Awaits(s.held, t, s.held[t].r);
      assert P.IsWaiting(s.refs, s.held[t].r, u) && P.IsWaiting(s.refs, s.held[t].r, t);
    }
  }

  lemma InstallRefs(s: State, s': State, t: Tid, ptr: nat)
    requires Valid(s) && Next(s, s', Install(t), ptr)
    ensures RefsOk(s')
  {
    hide HeapOk, P.Valid, P.IsOut, P.IsWaiting, K.Off, P.Aligned, Carried;
    HeldOwner(s, t);
    OneCarrier(s, t);
    forall r | r != s.held[t].r ensures Carried(s'.held, r) <==> Carried(s.held, r) {
      CarriedBut(s.held, s'.held, t, r);
    }
    assert Carried(s.held, s.held[t].r) by { CarriesIt(s.held, t); }
  }

  lemma CarriesIt(held: map<Tid, Stage>, t: Tid)
    requires t in held && held[t].HaveRef?
    ensures Carried(held, held[t].r)
  {
    assert Carries(held, t, held[t].r);
  }

  lemma OneCarrier(s: State, t: Tid)
    requires HeapOk(s) && t in s.held && s.held[t].HaveRef?
    ensures forall u :: Carries(s.held, u, s.held[t].r) ==> u == t
  {}

  lemma LastRefs(s: State, s': State, t: Tid, p: nat)
    requires Valid(s) && Next(s, s', Free(t, p), 0) && s.live[p].Small?
    requires |s.v.pages[s.live[p].r].free| + 1 >= K.Blocks(s.v.pages[s.live[p].r].blk)
    ensures RefsOk(s')
  {
    hide HeapOk, RefsOk, P.Next, K.Off, Carried;
    var r := s.live[p].r;
    PageOwner(s, r);
    forall q ensures Carried(s'.held, q) <==> Carried(s.held, q) { CarriedBut(s.held, s'.held, t, q); }
    RefsChange(s, s', P.Free(r), P.NoSlot);
  }

  lemma PageOwner(s: State, r: P.Ref)
    requires HeapOk(s) && r in s.v.pages
    ensures s.v.pages[r].addr in s.owner && s.owner[s.v.pages[r].addr] == Heap(r) && !Carried(s.held, r)
  {}

  lemma HeapKeeps(s: State, s': State, m: Move, ptr: nat)
    requires Valid(s) && Next(s, s', m, ptr)
    ensures HeapOk(s')
  {
    hide HeapOk, RefsOk;
    match m
    case Hit(sz, r) => HitKeeps(s, s', sz, r, ptr);
    case Miss(t, sz, b, addr) => HeldKeeps(s, s', m);
    case Reserve(t, slot, got) =>
      if got.Slot? { GotFresh(s, s'.refs, P.Reserve(t, slot), got); }
      RefKeeps(s, s', m);
    case Finish(t, va, got) =>
      FinishGot(s.refs, s'.refs, s.held[t].r, va, got);
      if got.Slot? { GotFresh(s, s'.refs, P.Finish(s.held[t].r, va), got); }
      RefKeeps(s, s', m);
    case Install(t) => InstallKeeps(s, s', t, ptr);
    case Whole(sz, addr) => WholeKeeps(s, s', sz, addr);
    case GiveBack(t) => HeldKeeps(s, s', m);
    case Free(t, p) =>
      if s.live[p].Big? { BigFreeKeeps(s, s', t, p); }
      else if |s.v.pages[s.live[p].r].free| + 1 < K.Blocks(s.v.pages[s.live[p].r].blk) { KeptKeeps(s, s', t, p); }
      else { LastFreeKeeps(s, s', t, p); }
  }

  lemma NextKeeps(s: State, s': State, m: Move, ptr: nat)
    requires Valid(s) && Next(s, s', m, ptr)
    ensures Valid(s')
  {
    HeapKeeps(s, s', m, ptr);
    hide HeapOk, RefsOk;
    match m
    case Hit(_, _) => SimpleRefs(s, s', m, ptr);
    case Miss(_, _, _, _) => SimpleRefs(s, s', m, ptr);
    case Reserve(t, slot, got) => ReserveRefs(s, s', t, slot, got);
    case Finish(t, va, got) => FinishRefs(s, s', t, va, got);
    case Install(t) => InstallRefs(s, s', t, ptr);
    case Whole(_, _) => SimpleRefs(s, s', m, ptr);
    case GiveBack(_) => SimpleRefs(s, s', m, ptr);
    case Free(t, p) =>
      if s.live[p].Small? && |s.v.pages[s.live[p].r].free| + 1 >= K.Blocks(s.v.pages[s.live[p].r].blk) {
        LastRefs(s, s', t, p);
      } else {
        FreeRefs(s, s', t, p);
      }
  }

  ghost predicate Empty(s: State)
  {
    s == State(K.NoPages(), map[], map[], map[], s.refs) && P.Started(s.refs)
  }

  ghost predicate IsRun(states: seq<State>, moves: seq<Move>, ptrs: seq<nat>)
  {
    && |states| == |moves| + 1 && |ptrs| == |moves| && Empty(states[0])
    && (forall i :: 0 <= i < |moves| ==> Next(states[i], states[i + 1], moves[i], ptrs[i]))
  }

  lemma EmptyValid(s: State)
    requires Empty(s)
    ensures Valid(s)
  {
    P.StartedValid(s.refs);
  }

  lemma {:induction false} RunsValid(states: seq<State>, moves: seq<Move>, ptrs: seq<nat>, i: nat)
    requires IsRun(states, moves, ptrs) && i < |states|
    ensures Valid(states[i])
  {
    hide Next;
    if i == 0 {
      EmptyValid(states[0]);
    } else {
      RunsValid(states, moves, ptrs, i - 1);
      NextKeeps(states[i - 1], states[i], moves[i - 1], ptrs[i - 1]);
    }
  }

  // ---- What users can rely on ----

  /** How many bytes a live pointer stands for. */
  ghost function Extent(s: State, p: nat): (n: nat)
    requires HeapOk(s) && p in s.live
  {
    match s.live[p]
    case Small(r, k, sz) => assert LiveOk(s, p); K.Size(s.v.pages[r].blk)
    case Big(n, sz) => n * PAGE_SIZE
  }

  /** Live blocks are at least as large as was asked for, and no two overlap. */
  lemma LiveApart(states: seq<State>, moves: seq<Move>, ptrs: seq<nat>, i: nat, p: nat, q: nat)
    requires IsRun(states, moves, ptrs) && i < |states| && p in states[i].live && q in states[i].live && p < q
    ensures Valid(states[i])
    ensures Extent(states[i], p) >= states[i].live[p].sz
    ensures p + Extent(states[i], p) <= q
  {
    hide IsRun, HeapOk, RefsOk;
    RunsValid(states, moves, ptrs, i);
    ExtentEnough(states[i], p);
    ExtentsApart(states[i], p, q);
  }

  lemma ExtentEnough(s: State, p: nat)
    requires HeapOk(s) && p in s.live
    ensures Extent(s, p) >= s.live[p].sz
  {}

  /** Every page within a big block is part of it. */
  lemma InRegion(s: State, p: nat, a: nat)
    requires HeapOk(s) && p in s.live && s.live[p].Big? && P.Aligned(a) && p <= a < p + s.live[p].n * PAGE_SIZE
    ensures a in s.owner && s.owner[a] == Part(p)
  {
    assert LiveOk(s, p);
    hide HeapOk;
    var i := (a - p) / PAGE_SIZE;
    assert a == p + i * PAGE_SIZE && i < s.live[p].n;
    assert PageAt(p, i) == a;
  }

  /** The page a small block is on. */
  lemma OnHeapPage(s: State, p: nat)
    requires HeapOk(s) && p in s.live && s.live[p].Small?
    ensures var r := s.live[p].r;
      && r in s.v.pages && P.Aligned(s.v.pages[r].addr)
      && s.v.pages[r].addr in s.owner && s.owner[s.v.pages[r].addr] == Heap(r)
      && s.v.pages[r].addr <= p && p + Extent(s, p) <= s.v.pages[r].addr + PAGE_SIZE && Extent(s, p) > 0
  {
    hide HeapOk, K.ViewOk, K.AllUsed, K.Off, P.Aligned;
    Parts(s);
    BlockOf(s, p);
    var pg := s.v.pages[s.live[p].r];
    PageKnown(s.v, s.live[p].r);
    K.OffFacts(pg.blk, s.live[p].k);
    K.SizeFacts(pg.blk);
  }

  lemma ExtentsApart(s: State, p: nat, q: nat)
    requires HeapOk(s) && p in s.live && q in s.live && p < q
    ensures p + Extent(s, p) <= q
  {
    assert LiveOk(s, p) && LiveOk(s, q);
    hide HeapOk, K.ViewOk, K.AllUsed, K.Off, P.Aligned, PagesFor;
    Parts(s);
    if s.live[p].Small? {
      OnHeapPage(s, p);
      if s.live[q].Small? {
        K.BlocksApart(s.v, s.live[p].r, s.live[p].k, s.live[q].r, s.live[q].k);
        OnHeapPage(s, q);
      } else {
        assert PageAt(q, 0) == q;
        K.AlignedApart(s.v.pages[s.live[p].r].addr, q);
      }
    } else {
      var a := if s.live[q].Small? then s.v.pages[s.live[q].r].addr else q;
      if s.live[q].Small? { OnHeapPage(s, q); } else { assert PageAt(q, 0) == q; }
      BelowRegion(s, p, q, a);
    }
  }

  lemma BelowRegion(s: State, p: nat, q: nat, a: nat)
    requires HeapOk(s) && p in s.live && s.live[p].Big? && p < q && a <= q < a + PAGE_SIZE
    requires P.Aligned(p) && P.Aligned(a) && a in s.owner && s.owner[a] != Part(p)
    ensures p + s.live[p].n * PAGE_SIZE <= q
  {
    hide HeapOk, P.Aligned;
    if a != p { K.AlignedApart(a, p); }
    assert p <= a;
    if a < p + s.live[p].n * PAGE_SIZE { InRegion(s, p, a); }
  }

  /**
   kfree takes the right branch: a big block is on no heap page, a small one is a block of the page
   it is found on.
   */
  lemma FreeFinds(states: seq<State>, moves: seq<Move>, ptrs: seq<nat>, i: nat, p: nat, r: P.Ref)
    requires IsRun(states, moves, ptrs) && i < |states| && p in states[i].live && r in states[i].v.pages
    ensures K.OnPage(states[i].v.pages[r], p) <==> states[i].live[p].Small? && states[i].live[p].r == r
    ensures states[i].live[p].Small? && states[i].live[p].r == r ==>
            K.IsBlock(states[i].v, p, r, states[i].live[p].k) && states[i].live[p].k !in states[i].v.pages[r].free
    ensures states[i].live[p].Big? ==> P.Aligned(p)
  {
    hide IsRun, HeapOk, RefsOk;
    RunsValid(states, moves, ptrs, i);
    Finds(states[i], p, r);
  }

  lemma Finds(s: State, p: nat, r: P.Ref)
    requires HeapOk(s) && p in s.live && r in s.v.pages
    ensures K.OnPage(s.v.pages[r], p) <==> s.live[p].Small? && s.live[p].r == r
    ensures s.live[p].Small? && s.live[p].r == r ==>
            K.IsBlock(s.v, p, r, s.live[p].k) && s.live[p].k !in s.v.pages[r].free
    ensures s.live[p].Big? ==> P.Aligned(p)
  {
    hide HeapOk, K.ViewOk, K.AllUsed, K.Off, P.Aligned;
    Parts(s);
    PageKnown(s.v, r);
    assert LiveOk(s, p);
    if s.live[p].Small? {
      BlockOf(s, p);
      OnHeapPage(s, p);
      if s.live[p].r != r { K.PagesApart(s.v, r, s.live[p].r); }
    } else {
      assert PageAt(p, 0) == p;
      if K.OnPage(s.v.pages[r], p) { OneAligned(s.v.pages[r].addr, p); }
    }
  }

  /** A page goes back through free_kpages only while a thread owns it, and then nothing live is on it. */
  lemma GivenBackOnce(states: seq<State>, moves: seq<Move>, ptrs: seq<nat>, i: nat, t: Tid)
    requires IsRun(states, moves, ptrs) && i < |moves| && moves[i] == GiveBack(t)
    ensures t in states[i].held && states[i].held[t].addr in states[i].owner
    ensures states[i].owner[states[i].held[t].addr] == Thread(t)
    ensures states[i].held[t].addr !in states[i + 1].owner
    ensures forall p :: p in states[i].live ==> !(states[i].held[t].addr <= p < states[i].held[t].addr + PAGE_SIZE)
    ensures forall r :: r in states[i].v.pages ==> states[i].v.pages[r].addr != states[i].held[t].addr
  {
    var s := states[i];
    RunsValid(states, moves, ptrs, i);
    assert Next(s, states[i + 1], moves[i], ptrs[i]);
    hide IsRun, HeapOk, RefsOk, K.ViewOk, K.AllUsed, P.Aligned;
    Parts(s);
    HeldKnown(s, t);
    forall p | p in s.live ensures !(s.held[t].addr <= p < s.held[t].addr + PAGE_SIZE) {
      if s.held[t].addr <= p < s.held[t].addr + PAGE_SIZE { NotLiveHere(s, s.held[t].addr, p); }
    }
  }

  /**
   Every pageref marked in use is a heap page's, in the hands of a thread between getting it and
   installing its page, waited for by a thread, or lost; and it is only one of these.
   */
  lemma RefsAccounted(states: seq<State>, moves: seq<Move>, ptrs: seq<nat>, i: nat, r: P.Ref)
    requires IsRun(states, moves, ptrs) && i < |states|
    ensures P.RootsOk(states[i].refs.roots)
    ensures P.IsRef(r) && states[i].refs.roots[r.root].inuse[r.index] <==>
      || r in states[i].v.pages || Carried(states[i].held, r) || (exists t :: Awaits(states[i].held, t, r))
      || (r in states[i].refs.status && states[i].refs.status[r].Lost?)
    ensures r in states[i].v.pages ==> !Carried(states[i].held, r)
    ensures r in states[i].v.pages || Carried(states[i].held, r) ==>
      && (forall t :: !Awaits(states[i].held, t, r))
      && r in states[i].refs.status && !states[i].refs.status[r].Lost?
  {
    hide IsRun, HeapOk;
    RunsValid(states, moves, ptrs, i);
    var s := states[i];
    if r in s.v.pages { PageOwner(s, r); }
    hide Carried, Awaits, P.Count, P.PagesOk;
    assert P.IsOut(s.refs, r) <==> r in s.v.pages || Carried(s.held, r);
    if r in s.refs.status && s.refs.status[r].Waiting? { assert P.IsWaiting(s.refs, r, s.refs.status[r].t); }
    forall t ensures Awaits(s.held, t, r) ==> P.IsWaiting(s.refs, r, t) {}
  }

  /** No live block overlaps a page of pagerefs. */
  lemma RootsApart(states: seq<State>, moves: seq<Move>, ptrs: seq<nat>, i: nat, p: nat, w: nat)
    requires IsRun(states, moves, ptrs) && i < |states| && p in states[i].live
    requires w < |states[i].refs.roots| && states[i].refs.roots[w].page != 0
    ensures Valid(states[i])
    ensures var a := states[i].refs.roots[w].page; p + Extent(states[i], p) <= a || a + PAGE_SIZE <= p
  {
    hide IsRun, HeapOk;
    RunsValid(states, moves, ptrs, i);
    var s := states[i];
    var a := s.refs.roots[w].page;
    assert P.Aligned(a) && a in s.owner && s.owner[a] == Root(w);
    hide RefsOk, P.Aligned;
    Parts(s);
    if s.live[p].Small? {
      OnHeapPage(s, p);
      K.AlignedApart(s.v.pages[s.live[p].r].addr, a);
    } else {
      BigStart(s, p);
      if p < a { BelowRegion(s, p, a, a); } else { K.AlignedApart(a, p); }
    }
  }

  lemma BigStart(s: State, p: nat)
    requires Lives(s) && p in s.live && s.live[p].Big?
    ensures P.Aligned(p) && p in s.owner && s.owner[p] == Part(p)
  {
    assert LiveOk(s, p) && PageAt(p, 0) == p;
  }

  /** The pointer is to the only live block of its page. */
  ghost predicate IsLast(s: State, p: nat)
    requires HeapOk(s) && p in s.live
  {
    s.live[p].Small? && (assert LiveOk(s, p); |s.v.pages[s.live[p].r].free| + 1 == K.Blocks(s.v.pages[s.live[p].r].blk))
  }

  /**
   kfree of a live pointer passes all its assertions exactly unless it empties a page whose pageref
   comes after a root that has no page and has entries in use.
   */
  lemma KfreePasses(states: seq<State>, moves: seq<Move>, ptrs: seq<nat>, i: nat, t: Tid, p: nat)
    requires IsRun(states, moves, ptrs) && i < |states| && p in states[i].live && t !in states[i].held
    ensures Valid(states[i]) && (IsLast(states[i], p) ==> states[i].live[p].r.root < |states[i].refs.roots|)
    ensures (exists s' :: Next(states[i], s', Free(t, p), 0)) <==>
            (IsLast(states[i], p) ==> P.CleanBefore(states[i].refs.roots, states[i].live[p].r.root))
  {
    hide IsRun, HeapOk, RefsOk;
    RunsValid(states, moves, ptrs, i);
    FreeSteps(states[i], t, p);
  }

  lemma FreeSteps(s: State, t: Tid, p: nat)
    requires Valid(s) && p in s.live && t !in s.held
    ensures IsLast(s, p) ==> s.live[p].r.root < |s.refs.roots|
    ensures (exists s' :: Next(s, s', Free(t, p), 0)) <==>
            (IsLast(s, p) ==> P.CleanBefore(s.refs.roots, s.live[p].r.root))
  {
    hide HeapOk, RefsOk, K.Removed, K.Pushed, P.Next, P.CleanBefore, Region;
    match s.live[p]
    case Big(n, sz) => assert Next(s, s.(live := s.live - {p}, owner := s.owner - Region(p, n).Keys), Free(t, p), 0);
    case Small(r, k, sz) =>
      SmallKnown(s, p);
      if !IsLast(s, p) {
        assert Next(s, s.(v := K.Pushed(s.v, r, k), live := s.live - {p}), Free(t, p), 0);
      } else {
        P.FreePasses(s.refs, r);
        LastStep(s, t, p);
      }
  }

  lemma SmallKnown(s: State, p: nat)
    requires Valid(s) && p in s.live && s.live[p].Small?
    ensures var r, k := s.live[p].r, s.live[p].k;
      && r in s.v.pages && s.v.pages[r].blk < K.NSIZES == |s.v.same|
      && |K.Pushed(s.v, r, k).pages[r].free| == |s.v.pages[r].free| + 1 <= K.Blocks(s.v.pages[r].blk)
      && P.Valid(s.refs) && P.IsOut(s.refs, r) && P.IsRef(r) && |s.refs.roots| == P.ROOTS
  {}

  lemma LastStep(s: State, t: Tid, p: nat)
    requires HeapOk(s) && p in s.live && t !in s.held && s.live[p].Small?
    requires var r := s.live[p].r;
      && r in s.v.pages && s.v.pages[r].blk < K.NSIZES == |s.v.same|
      && |K.Pushed(s.v, r, s.live[p].k).pages[r].free| == K.Blocks(s.v.pages[r].blk)
    ensures (exists s' :: Next(s, s', Free(t, p), 0)) <==>
            (exists refs :: P.Next(s.refs, refs, P.Free(s.live[p].r), P.NoSlot))
  {
    hide HeapOk, P.Next, K.Removed;
    var r := s.live[p].r;
    var v := K.Pushed(s.v, r, s.live[p].k);
    if s' :| Next(s, s', Free(t, p), 0) { assert P.Next(s.refs, s'.refs, P.Free(r), P.NoSlot); }
    if refs :| P.Next(s.refs, refs, P.Free(r), P.NoSlot) {
      assert Next(s, State(K.Removed(v, r), s.live - {p}, s.held[t := Giving(s.v.pages[r].addr)],
                           s.owner[s.v.pages[r].addr := Thread(t)], refs), Free(t, p), 0);
    }
  }

  // ---- A run in which kfree of a live pointer panics ----

  /** After k calls of kmalloc have each failed to get a page for the first root. */
  function Leaked(k: nat): (s: State)
    requires k <= P.ENTRIES
  {
    State(K.NoPages(), map[], map[], map[], P.Leaked(k))
  }

  /** A call that has a page, or has given it up, when the heap is empty. */
  function Calling(h: Stage, refs: P.State): (s: State)
  {
    State(K.NoPages(), map[], map[0 := h], map[h.addr := Thread(0)], refs)
  }

  /** One more call that fails. */
  lemma LeakCall(k: nat) returns (a: State, b: State, c: State)
    requires k < P.ENTRIES
    ensures Next(Leaked(k), a, Miss(0, 1, 0, PAGE_SIZE), 0)
    ensures Next(a, b, Reserve(0, P.Slot(P.Ref(0, k)), P.NoSlot), 0)
    ensures Next(b, c, Finish(0, 0, P.NoSlot), 0)
    ensures Next(c, Leaked(k + 1), GiveBack(0), 0)
  {
    hide P.Next, P.Leaked;
    var mid := P.LeakStep(k);
    a := Calling(HavePage(PAGE_SIZE, 1, 0), P.Leaked(k));
    b := Calling(WaitRef(PAGE_SIZE, 1, 0, P.Ref(0, k)), mid);
    c := Calling(Giving(PAGE_SIZE), P.Leaked(k + 1));
    LeakPage(k, mid);
  }

  /** The first root has no page meanwhile. */
  lemma LeakPage(k: nat, mid: P.State)
    requires k < P.ENTRIES && P.Next(P.Leaked(k), mid, P.Reserve(0, P.Slot(P.Ref(0, k))), P.NoSlot)
    ensures |mid.roots| == P.ROOTS && mid.roots[0].page == 0
  {}

  lemma {:induction false} LeakRun(k: nat) returns (states: seq<State>, moves: seq<Move>, ptrs: seq<nat>)
    requires k <= P.ENTRIES
    ensures IsRun(states, moves, ptrs) && states[|moves|] == Leaked(k)
  {
    if k == 0 {
      P.LeakedStarted();
      states, moves, ptrs := [Leaked(0)], [], [];
    } else {
      hide Next, Leaked;
      states, moves, ptrs := LeakRun(k - 1);
      var a, b, c := LeakCall(k - 1);
      states, moves, ptrs := Extended(states, moves, ptrs, a, Miss(0, 1, 0, PAGE_SIZE), 0);
      states, moves, ptrs := Extended(states, moves, ptrs, b, Reserve(0, P.Slot(P.Ref(0, k - 1)), P.NoSlot), 0);
      states, moves, ptrs := Extended(states, moves, ptrs, c, Finish(0, 0, P.NoSlot), 0);
      states, moves, ptrs := Extended(states, moves, ptrs, Leaked(k), GiveBack(0), 0);
    }
  }

  lemma Extended(states: seq<State>, moves: seq<Move>, ptrs: seq<nat>, s: State, m: Move, ptr: nat)
    returns (states': seq<State>, moves': seq<Move>, ptrs': seq<nat>)
    requires IsRun(states, moves, ptrs) && Next(states[|moves|], s, m, ptr)
    ensures IsRun(states', moves', ptrs') && states'[|moves'|] == s && |moves'| == |moves| + 1
  {
    hide Next, Empty;
    states', moves', ptrs' := states + [s], moves + [m], ptrs + [ptr];
  }

  /** The call after those gets a pageref of the second root. */
  lemma CallAfterLeak() returns (a: State, b: State, c: State)
    ensures Next(Leaked(P.ENTRIES), a, Miss(0, 1, 0, PAGE_SIZE), 0)
    ensures Next(a, b, Reserve(0, P.Slot(P.Ref(1, 0)), P.NoSlot), 0)
    ensures Next(b, c, Finish(0, 2 * PAGE_SIZE, P.Slot(P.Ref(1, 0))), 0)
    ensures c == Calling(HaveRef(PAGE_SIZE, 1, 0, P.Ref(1, 0)), c.refs).(owner := c.owner)
    ensures |c.refs.roots| == P.ROOTS && !P.CleanBefore(c.refs.roots, 1)
  {
    hide P.Next, P.Leaked, P.CleanBefore;
    var mid, last := P.AfterLeak(2 * PAGE_SIZE);
    var r := P.Ref(1, 0);
    a := Calling(HavePage(PAGE_SIZE, 1, 0), P.Leaked(P.ENTRIES));
    b := Calling(WaitRef(PAGE_SIZE, 1, 0, r), mid);
    c := Calling(HaveRef(PAGE_SIZE, 1, 0, r), last).(owner := b.owner[2 * PAGE_SIZE := Root(1)]);
  }

  /** And returns the last block of its page. */
  lemma FirstBlock(c: State, r: P.Ref) returns (d: State, ptr: nat)
    requires c == Calling(HaveRef(PAGE_SIZE, 1, 0, r), c.refs).(owner := c.owner)
    ensures Next(c, d, Install(0), ptr)
    ensures d.live == map[ptr := Small(r, 255, 1)] && d.held == map[] && d.refs == c.refs
    ensures r in d.v.pages && d.v.pages[r].blk == 0 && |d.v.pages[r].free| == 255
  {
    hide K.Off;
    K.SizeFacts(0);
    ptr := K.BlockAddr(K.Page(PAGE_SIZE, 0, []), 255);
    var v := K.Installed(K.NoPages(), r, PAGE_SIZE, 0);
    d := State(K.Popped(v, r), map[ptr := Small(r, 255, 1)], map[], c.owner[PAGE_SIZE := Heap(r)], c.refs);
  }

  /** Freeing what that call returned panics. */
  lemma LeakBreaksKfree() returns (states: seq<State>, moves: seq<Move>, ptrs: seq<nat>, p: nat)
    ensures IsRun(states, moves, ptrs)
    ensures p in states[|moves|].live && !exists s' :: Next(states[|moves|], s', Free(0, p), 0)
  {
    hide Next, Leaked, Valid;
    states, moves, ptrs := LeakRun(P.ENTRIES);
    var a, b, c := CallAfterLeak();
    var d, ptr := FirstBlock(c, P.Ref(1, 0));
    states, moves, ptrs := Extended(states, moves, ptrs, a, Miss(0, 1, 0, PAGE_SIZE), 0);
    states, moves, ptrs := Extended(states, moves, ptrs, b, Reserve(0, P.Slot(P.Ref(1, 0)), P.NoSlot), 0);
    states, moves, ptrs := Extended(states, moves, ptrs, c, Finish(0, 2 * PAGE_SIZE, P.Slot(P.Ref(1, 0))), 0);
    states, moves, ptrs := Extended(states, moves, ptrs, d, Install(0), ptr);
    p := ptr;
    RunsValid(states, moves, ptrs, |moves|);
    KfreePasses(states, moves, ptrs, |moves|, 0, p);
  }

  /** Between calls, every page on the lists has a live block, and both lists hold the same pages. */
  lemma ListsAgree(states: seq<State>, moves: seq<Move>, ptrs: seq<nat>, i: nat)
    requires IsRun(states, moves, ptrs) && i < |states|
    ensures var v := states[i].v;
      && K.Distinct(v.all) && |v.same| == K.NSIZES
      && (forall b :: 0 <= b < K.NSIZES ==> K.Distinct(v.same[b]))
      && (forall b, c, r :: 0 <= b < c < K.NSIZES && r in v.same[b] ==> r !in v.same[c])
      && (forall r :: r in v.all <==> exists b :: 0 <= b < K.NSIZES && r in v.same[b])
      && (forall r :: r in v.pages ==>
            exists p :: p in states[i].live && states[i].live[p].Small? && states[i].live[p].r == r)
  {
    hide IsRun;
    RunsValid(states, moves, ptrs, i);
    var s := states[i];
    forall r | r in s.v.pages ensures exists p :: p in s.live && s.live[p].Small? && s.live[p].r == r {
      SomeLive(s, r);
    }
    hide Used, Lives, Helds, Owned;
    forall r ensures r in s.v.all <==> exists b :: 0 <= b < K.NSIZES && r in s.v.same[b] {
      if r in s.v.all { assert K.PageOk(s.v.pages[r]) && r in s.v.same[s.v.pages[r].blk]; }
    }
  }

  lemma SomeLive(s: State, r: P.Ref)
    requires HeapOk(s) && r in s.v.pages
    ensures exists p :: p in s.live && s.live[p].Small? && s.live[p].r == r
  {
    var pg := s.v.pages[r];
    assert PageUsed(s, r) && K.PageOk(pg);
    assert |pg.free| < K.Blocks(pg.blk);
    hide HeapOk;
    var k := Missing(pg.free, K.Blocks(pg.blk));
    assert K.BlockAddr(pg, k) in s.live;
  }

  /** Fewer entries than numbers leave one out. */
  lemma {:induction false} Missing(s: seq<nat>, n: nat) returns (k: nat)
    requires |s| < n
    ensures k < n && k !in s
  {
    if n - 1 !in s { k := n - 1; }
    else {
      var i :| 0 <= i < |s| && s[i] == n - 1;
      var rest := s[..i] + s[i + 1..];
      forall j | 0 <= j < |s| && j != i ensures s[j] in rest { assert s[j] == rest[if j < i then j else j - 1]; }
      k := Missing(rest, n - 1);
    }
  }
}
