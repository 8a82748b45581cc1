/**
 The subpage allocator of the kernel heap.  A heap page is cut into blocks of
 one size; its free blocks are linked through their own first words.  Each page
 has a pageref, linked on a list of the pages of its size and on a list of all
 pages.
 */
module Kheap {
  import D = Digits
  import P = Pagerefs

  type Ref = P.Ref

  const PAGE_SIZE := 4096
  const NSIZES := 8
  const INVALID_OFFSET := 0xffff

  // ---- Sizes ----

  function Size(b: nat): (s: nat)
    requires b < NSIZES
  {
    if b == 0 then 16 else if b == 1 then 32 else if b == 2 then 64 else if b == 3 then 128
    else if b == 4 then 256 else if b == 5 then 512 else if b == 6 then 1024 else 2048
  }

  /** How many blocks of a size fit on a page. */
  function Blocks(b: nat): (n: nat)
    requires b < NSIZES
  {
    PAGE_SIZE / Size(b)
  }

  lemma SizeFacts(b: nat)
    requires b < NSIZES
    ensures Size(b) * Blocks(b) == PAGE_SIZE && Size(b) >= 16 && Blocks(b) >= 2
  {}

  /** blocktype: the first size that is large enough. */
  method BlockType(sz: nat) returns (b: nat)
    requires sz <= 2048
    ensures b < NSIZES && sz <= Size(b) && (b == 0 || Size(b - 1) < sz)
  {
    assert Size(NSIZES - 1) == 2048;
    for i := 0 to NSIZES
      invariant forall j :: 0 <= j < i ==> Size(j) < sz
    {
      if sz <= Size(i) { return i; }
    }
    assert false;
  }

  /** Where block k of a page starts. */
  function Off(b: nat, k: nat): (o: nat)
    requires b < NSIZES
  {
    k * Size(b)
  }

  lemma OffFacts(b: nat, k: nat)
    requires b < NSIZES && k < Blocks(b)
    ensures Off(b, k) + Size(b) <= PAGE_SIZE && Off(b, k) % Size(b) == 0 && Off(b, k) / Size(b) == k
    ensures Off(b, k) < INVALID_OFFSET
  {
    SizeFacts(b);
    MulUp(k, Blocks(b) - 1, Size(b));
    DivBack(k, Size(b));
  }

  lemma MulUp(j: nat, k: nat, s: nat)
    requires j <= k
    ensures j * s <= k * s
  {}

  lemma DivBack(k: nat, s: nat)
    requires s > 0
    ensures (k * s) / s == k && (k * s) % s == 0
  {
    D.DivModUnique(k * s, s, k, 0);
  }

  /** Blocks of a page do not overlap. */
  lemma OffApart(b: nat, j: nat, k: nat)
    requires b < NSIZES && j < k
    ensures Off(b, j) + Size(b) <= Off(b, k)
  {}

  /** An offset that is a multiple of the size is a block's. */
  lemma OffBack(b: nat, o: nat)
    requires b < NSIZES && o < PAGE_SIZE && o % Size(b) == 0
    ensures o / Size(b) < Blocks(b) && Off(b, o / Size(b)) == o
  {}

  // ---- The heap as its users see it ----

  /** A heap page: its address, its block type, and its free blocks in the order they will be handed out. */
  datatype Page = Page(addr: nat, blk: nat, free: seq<nat>)

  /** The pages, by pageref, and the two lists. */
  datatype View = View(pages: map<Ref, Page>, same: seq<seq<Ref>>, all: seq<Ref>)

  ghost predicate Distinct<T>(s: seq<T>) { forall i, j :: 0 <= i < j < |s| ==> s[i] != s[j] }

  ghost predicate PageOk(p: Page)
  {
    && p.addr > 0 && P.Aligned(p.addr) && p.blk < NSIZES
    && Distinct(p.free) && (forall i :: 0 <= i < |p.free| ==> p.free[i] < Blocks(p.blk))
  }

  /** Both lists hold the same pages, each once. */
  ghost predicate ViewOk(v: View)
  {
    && Distinct(v.all) && (forall r :: r in v.all <==> r in v.pages)
    && |v.same| == NSIZES
    && (forall b :: 0 <= b < NSIZES ==>
          Distinct(v.same[b]) && forall r :: r in v.same[b] <==> r in v.pages && v.pages[r].blk == b)
    && (forall r :: r in v.pages ==> PageOk(v.pages[r]))
    && (forall r, q :: r in v.pages && q in v.pages && r != q ==> v.pages[r].addr != v.pages[q].addr)
  }

  /** No page is entirely free. */
  ghost predicate AllUsed(v: View)
  {
    forall r :: r in v.pages && v.pages[r].blk < NSIZES ==> |v.pages[r].free| < Blocks(v.pages[r].blk)
  }

  function NoPages(): (v: View) { View(map[], seq(NSIZES, b => []), []) }

  // What the operations do to it.

  function Popped(v: View, r: Ref): (v': View)
    requires r in v.pages && v.pages[r].free != []
  {
    v.(pages := v.pages[r := v.pages[r].(free := v.pages[r].free[1..])])
  }

  function Pushed(v: View, r: Ref, k: nat): (v': View)
    requires r in v.pages
  {
    v.(pages := v.pages[r := v.pages[r].(free := [k] + v.pages[r].free)])
  }

  /** Block numbers from the last to the first, the order in which a new page's free list is threaded. */
  function Descending(n: nat): (s: seq<nat>)
    ensures |s| == n && forall i :: 0 <= i < n ==> s[i] == n - 1 - i
  {
    if n == 0 then [] else [n - 1] + Descending(n - 1)
  }

  function Installed(v: View, r: Ref, addr: nat, b: nat): (v': View)
    requires b < NSIZES == |v.same|
  {
    View(v.pages[r := Page(addr, b, Descending(Blocks(b)))], v.same[b := [r] + v.same[b]], [r] + v.all)
  }

  function Without(s: seq<Ref>, r: Ref): (s': seq<Ref>)
  {
    if s == [] then [] else if s[0] == r then s[1..] else [s[0]] + Without(s[1..], r)
  }

  function Removed(v: View, r: Ref): (v': View)
    requires r in v.pages && v.pages[r].blk < |v.same|
  {
    var b := v.pages[r].blk;
    View(v.pages - {r}, v.same[b := Without(v.same[b], r)], Without(v.all, r))
  }

  lemma {:induction false} WithoutFacts(s: seq<Ref>, r: Ref, i: nat)
    requires Distinct(s) && i < |s| && s[i] == r
    ensures Without(s, r) == s[..i] + s[i + 1..]
  {
    if i == 0 {
    } else {
      WithoutFacts(s[1..], r, i - 1);
      assert s[..i] + s[i + 1..] == [s[0]] + (s[1..][..i - 1] + s[1..][i..]);
    }
  }

  lemma WithoutDistinct(s: seq<Ref>, r: Ref)
    requires Distinct(s) && r in s
    ensures Distinct(Without(s, r)) && forall q :: q in Without(s, r) <==> q in s && q != r
  {
    var i :| 0 <= i < |s| && s[i] == r;
    WithoutFacts(s, r, i);
    forall q | q in s && q != r ensures q in s[..i] + s[i + 1..] {
      var j :| 0 <= j < |s| && s[j] == q;
      if j < i { assert s[..i][j] == q; } else { assert s[i + 1..][j - i - 1] == q; }
    }
  }

  lemma PoppedOk(v: View, r: Ref)
    requires ViewOk(v) && r in v.pages && v.pages[r].free != []
    ensures ViewOk(Popped(v, r))
    ensures (forall q :: q in v.pages && q != r ==> |v.pages[q].free| < Blocks(v.pages[q].blk)) ==>
      AllUsed(Popped(v, r))
  {
    AtMost(v.pages[r].free, Blocks(v.pages[r].blk));
  }

  lemma PushedOk(v: View, r: Ref, k: nat)
    requires ViewOk(v) && r in v.pages && k < Blocks(v.pages[r].blk) && k !in v.pages[r].free
    ensures ViewOk(Pushed(v, r, k)) && |Pushed(v, r, k).pages[r].free| <= Blocks(v.pages[r].blk)
  {
    AtMost(Pushed(v, r, k).pages[r].free, Blocks(v.pages[r].blk));
  }

  lemma InstalledOk(v: View, r: Ref, addr: nat, b: nat)
    requires ViewOk(v) && r !in v.pages && b < NSIZES && addr > 0 && P.Aligned(addr)
    requires forall q :: q in v.pages ==> v.pages[q].addr != addr
    ensures ViewOk(Installed(v, r, addr, b))
  {}

  lemma RemovedOk(v: View, r: Ref)
    requires ViewOk(v) && r in v.pages
    ensures ViewOk(Removed(v, r))
    ensures AllUsed(v.(pages := v.pages - {r})) ==> AllUsed(Removed(v, r))
  {
    WithoutDistinct(v.all, r);
    WithoutDistinct(v.same[v.pages[r].blk], r);
  }

  // ---- The heap as it is in memory ----

  datatype Link = Null | To(r: Ref)

  /** struct pageref; head is freelist_offset. */
  datatype PageRef = PageRef(page: nat, blktype: nat, head: int, nfree: int, nextSame: Link, nextAll: Link)

  /** The pagerefs in use, the list heads, and the words at the start of free blocks; 0 is the null pointer. */
  datatype Memory = Memory(refs: map<Ref, PageRef>, sizebases: seq<Link>, allbase: Link, words: map<int, int>)

  function LinkAt(s: seq<Ref>, i: nat): (l: Link)
  {
    if i < |s| then To(s[i]) else Null
  }

  /** The address of block k of a page. */
  function BlockAddr(p: Page, k: nat): (a: nat)
    requires p.blk < NSIZES
  {
    p.addr + Off(p.blk, k)
  }

  /** The address of the i-th free block. */
  function FreeAddr(p: Page, i: nat): (a: nat)
    requires p.blk < NSIZES && i < |p.free|
  {
    BlockAddr(p, p.free[i])
  }

  /** What its first word holds: the address of the one after it. */
  function NextFree(p: Page, i: nat): (a: nat)
    requires p.blk < NSIZES && i < |p.free|
  {
    if i + 1 < |p.free| then BlockAddr(p, p.free[i + 1]) else 0
  }

  /** The free list of page p starts at the recorded offset, runs through the blocks' first words, and ends. */
  ghost predicate FreeListOk(words: map<int, int>, p: Page, head: int)
    requires p.blk < NSIZES
  {
    && head == (if p.free == [] then INVALID_OFFSET else Off(p.blk, p.free[0]))
    && (forall i {:trigger FreeAddr(p, i)} :: 0 <= i < |p.free| ==>
          FreeAddr(p, i) in words && words[FreeAddr(p, i)] == NextFree(p, i))
  }

  ghost predicate PageRep(m: Memory, r: Ref, p: Page)
    requires r in m.refs
  {
    && p.blk < NSIZES
    && m.refs[r].page == p.addr && m.refs[r].blktype == p.blk && m.refs[r].nfree == |p.free|
    && FreeListOk(m.words, p, m.refs[r].head)
  }

  function At(s: seq<Ref>, i: nat): (r: Ref)
    requires i < |s|
  {
    s[i]
  }

  ghost predicate SameLinks(m: Memory, s: seq<Ref>)
  {
    forall i {:trigger At(s, i)} :: 0 <= i < |s| ==> At(s, i) in m.refs && m.refs[At(s, i)].nextSame == LinkAt(s, i + 1)
  }

  ghost predicate AllLinks(m: Memory, s: seq<Ref>)
  {
    forall i {:trigger At(s, i)} :: 0 <= i < |s| ==> At(s, i) in m.refs && m.refs[At(s, i)].nextAll == LinkAt(s, i + 1)
  }

  /** Memory m represents view v. */
  ghost predicate Rep(m: Memory, v: View)
  {
    && m.refs.Keys == v.pages.Keys
    && |m.sizebases| == |v.same| == NSIZES
    && (forall b :: 0 <= b < NSIZES ==> m.sizebases[b] == LinkAt(v.same[b], 0) && SameLinks(m, v.same[b]))
    && m.allbase == LinkAt(v.all, 0) && AllLinks(m, v.all)
    && (forall r :: r in v.pages ==> PageRep(m, r, v.pages[r]))
  }

  /** Distinct block numbers of a page are at most as many as its blocks. */
  lemma {:induction false} AtMost(s: seq<nat>, n: nat)
    requires Distinct(s) && forall i :: 0 <= i < |s| ==> s[i] < n
    ensures |s| <= n
    decreases n
  {
    if s == [] {
    } else {
      assert s[0] < n;
      if n - 1 in s {
        var i :| 0 <= i < |s| && s[i] == n - 1;
        var rest := s[..i] + s[i + 1..];
        assert forall j :: 0 <= j < |rest| ==> rest[j] == s[if j < i then j else j + 1];
        AtMost(rest, n - 1);
      } else {
        forall j | 0 <= j < |s| ensures s[j] < n - 1 { assert s[j] in s; }
        AtMost(s, n - 1);
      }
    }
  }

  // ---- Blocks ----

  /** Different blocks, on one page or on two, do not overlap. */
  lemma BlocksApart(v: View, r: Ref, j: nat, q: Ref, k: nat)
    requires ViewOk(v) && r in v.pages && q in v.pages && j < Blocks(v.pages[r].blk) && k < Blocks(v.pages[q].blk)
    requires r != q || j != k
    ensures var a, b := BlockAddr(v.pages[r], j), BlockAddr(v.pages[q], k);
            a + Size(v.pages[r].blk) <= b || b + Size(v.pages[q].blk) <= a
  {
    var p, p' := v.pages[r], v.pages[q];
    assert PageOk(p) && PageOk(p');
    hide Off, ViewOk;
    OffFacts(p.blk, j);
    OffFacts(p'.blk, k);
    if r == q {
      if j < k { OffApart(p.blk, j, k); } else { OffApart(p.blk, k, j); }
    } else {
      PagesApart(v, r, q);
    }
  }

  lemma PagesApart(v: View, r: Ref, q: Ref)
    requires ViewOk(v) && r in v.pages && q in v.pages && r != q
    ensures var a, b := v.pages[r].addr, v.pages[q].addr; a + PAGE_SIZE <= b || b + PAGE_SIZE <= a
  {}

  lemma AlignedApart(a: nat, b: nat)
    requires P.Aligned(a) && P.Aligned(b) && a != b
    ensures a + PAGE_SIZE <= b || b + PAGE_SIZE <= a
  {}

  lemma BlocksDiffer(v: View, r: Ref, j: nat, q: Ref, k: nat)
    requires ViewOk(v) && r in v.pages && q in v.pages && j < Blocks(v.pages[r].blk) && k < Blocks(v.pages[q].blk)
    requires r != q || j != k
    ensures BlockAddr(v.pages[r], j) != BlockAddr(v.pages[q], k)
  {
    BlocksApart(v, r, j, q, k);
    SizeFacts(v.pages[r].blk);
    SizeFacts(v.pages[q].blk);
  }

  // ---- Taking a block off a page's free list ----

  function PopMem(m: Memory, r: Ref): (m': Memory)
    requires r in m.refs && m.refs[r].page + m.refs[r].head in m.words
  {
    var p := m.refs[r];
    var next := m.words[p.page + p.head];
    m.(refs := m.refs[r := p.(nfree := p.nfree - 1, head := if next != 0 then next - p.page else INVALID_OFFSET)])
  }

  /** The head of a free list, what its first word says, and what is left of the list. */
  lemma FreePop(words: map<int, int>, p: Page, head: int)
    requires PageOk(p) && FreeListOk(words, p, head) && p.free != []
    ensures 0 <= head < PAGE_SIZE && p.addr + head == BlockAddr(p, p.free[0]) && p.addr + head in words
    ensures var next := words[p.addr + head];
      if next == 0 then |p.free| == 1
      else |p.free| > 1 && 0 <= next - p.addr < PAGE_SIZE
    ensures var next := words[p.addr + head];
      FreeListOk(words, p.(free := p.free[1..]), if next != 0 then next - p.addr else INVALID_OFFSET)
  {
    OffFacts(p.blk, p.free[0]);
    if |p.free| > 1 { OffFacts(p.blk, p.free[1]); }
    hide Off;
    var rest := p.(free := p.free[1..]);
    assert FreeAddr(p, 0) in words && words[FreeAddr(p, 0)] == NextFree(p, 0);
    forall i | 0 <= i < |rest.free|
      ensures FreeAddr(rest, i) in words && words[FreeAddr(rest, i)] == NextFree(rest, i)
    {
      assert FreeAddr(rest, i) == FreeAddr(p, i + 1) && NextFree(rest, i) == NextFree(p, i + 1);
    }
  }

  /** doalloc takes the first free block, and its assertions hold. */
  lemma PopRep(m: Memory, v: View, r: Ref)
    requires Rep(m, v) && ViewOk(v) && r in v.pages && v.pages[r].free != []
    ensures r in m.refs && v.pages[r].blk < NSIZES
    ensures var x := m.refs[r];
      && 0 <= x.head < PAGE_SIZE && x.page + x.head == BlockAddr(v.pages[r], v.pages[r].free[0])
      && x.page + x.head in m.words
      && (if m.words[x.page + x.head] != 0 then x.nfree - 1 > 0 && 0 <= m.words[x.page + x.head] - x.page < PAGE_SIZE
          else x.nfree - 1 == 0)
      && Rep(PopMem(m, r), Popped(v, r))
  {
    var p := v.pages[r];
    assert PageRep(m, r, p) && PageOk(p);
    FreePop(m.words, p, m.refs[r].head);
    hide Off, FreeListOk, ViewOk;
    RefsRep(m, PopMem(m, r), v, Popped(v, r), r);
  }

  /** Only r's own counters change, so the lists and the other pages are as they were. */
  lemma RefsRep(m: Memory, m': Memory, v: View, v': View, r: Ref)
    requires Rep(m, v) && r in v.pages && r in m'.refs
    requires m' == m.(refs := m.refs[r := m'.refs[r]], words := m'.words)
    requires m'.refs[r].nextSame == m.refs[r].nextSame && m'.refs[r].nextAll == m.refs[r].nextAll
    requires r in v'.pages && v' == v.(pages := v.pages[r := v'.pages[r]])
    requires PageRep(m', r, v'.pages[r])
    requires forall q :: q in v.pages && q != r ==>
      PageRep(m, q, v.pages[q]) && FreeListOk(m'.words, v.pages[q], m.refs[q].head)
    ensures Rep(m', v')
  {}

  /** The addresses met when following first words from a, for at most n steps. */
  function Follow(words: map<int, int>, a: int, n: nat): (s: seq<int>)
    decreases n
  {
    if n == 0 || a == 0 || a !in words then [] else [a] + Follow(words, words[a], n - 1)
  }

  lemma {:induction false} FollowFree(words: map<int, int>, p: Page, head: int, i: nat, n: nat)
    requires PageOk(p) && FreeListOk(words, p, head) && i <= |p.free| <= i + n
    ensures var s := Follow(words, if i < |p.free| then FreeAddr(p, i) else 0, n);
      |s| == |p.free| - i && forall j :: 0 <= j < |s| ==> s[j] == BlockAddr(p, p.free[i + j])
    decreases n
  {
    hide Off;
    if i < |p.free| {
      assert words[FreeAddr(p, i)] == NextFree(p, i);
      FollowFree(words, p, head, i + 1, n - 1);
    }
  }

  /** What one meets when following the free list of page r in memory, for at most n steps. */
  function FreeWalk(m: Memory, r: Ref, n: nat): (s: seq<int>)
    requires r in m.refs
  {
    var x := m.refs[r];
    Follow(m.words, if x.head == INVALID_OFFSET then 0 else x.page + x.head, n)
  }

  /** It is nfree blocks of the page, all different, its free ones in order. */
  ghost predicate Walked(m: Memory, p: Page, r: Ref, n: nat)
    requires r in m.refs
  {
    var s := FreeWalk(m, r, n);
    && |s| == m.refs[r].nfree == |p.free| && Distinct(s) && p.blk < NSIZES
    && forall j :: 0 <= j < |s| ==> p.free[j] < Blocks(p.blk) && s[j] == BlockAddr(p, p.free[j])
  }

  /**
   In memory, a page's free list visits nfree blocks of that page, all
   different, and then ends, however long one goes on following it.
   */
  lemma FreeListWalk(m: Memory, v: View, r: Ref, n: nat)
    requires Rep(m, v) && ViewOk(v) && r in v.pages && r in m.refs && n >= m.refs[r].nfree
    ensures Walked(m, v.pages[r], r, n)
  {
    hide Rep, ViewOk, Off, Follow;
    var p, x := v.pages[r], m.refs[r];
    PageAt(m, v, r);
    FollowFree(m.words, p, x.head, 0, n);
    if p.free != [] { OffFacts(p.blk, p.free[0]); }
    var s := FreeWalk(m, r, n);
    forall i, j | 0 <= i < j < |s| ensures s[i] != s[j] { Apart(p, p.free[i], p.free[j]); }
  }

  lemma PageAt(m: Memory, v: View, r: Ref)
    requires Rep(m, v) && ViewOk(v) && r in v.pages
    ensures r in m.refs && PageRep(m, r, v.pages[r]) && PageOk(v.pages[r])
  {}

  // ---- Putting a block on a page's free list ----

  /** The new head's first word points at the old head. */
  function PushWord(addr: nat, head: int): (w: int)
  {
    if head == INVALID_OFFSET then 0 else addr + head
  }

  lemma FreePush(words: map<int, int>, p: Page, head: int, k: nat)
    requires PageOk(p) && FreeListOk(words, p, head) && k < Blocks(p.blk) && k !in p.free
    ensures FreeListOk(words[BlockAddr(p, k) := PushWord(p.addr, head)], p.(free := [k] + p.free), Off(p.blk, k))
    ensures PushWord(p.addr, head) != BlockAddr(p, k)
  {
    OffFacts(p.blk, k);
    if p.free != [] { OffFacts(p.blk, p.free[0]); Apart(p, k, p.free[0]); }
    hide PageOk;
    var p' := p.(free := [k] + p.free);
    var words' := words[BlockAddr(p, k) := PushWord(p.addr, head)];
    forall i | 0 <= i < |p'.free| ensures FreeAddr(p', i) in words' && words'[FreeAddr(p', i)] == NextFree(p', i) {
      if i > 0 {
        assert FreeAddr(p', i) == FreeAddr(p, i - 1) && NextFree(p', i) == NextFree(p, i - 1);
        assert p.free[i - 1] in p.free;
        Apart(p, k, p.free[i - 1]);
      }
    }
  }

  lemma Apart(p: Page, j: nat, k: nat)
    requires p.blk < NSIZES && j != k
    ensures BlockAddr(p, j) != BlockAddr(p, k)
  {}

  /** A write outside a page's free blocks does not disturb its free list. */
  lemma FreeListKeeps(words: map<int, int>, p: Page, head: int, a: int, w: int)
    requires p.blk < NSIZES && FreeListOk(words, p, head)
    requires forall i :: 0 <= i < |p.free| ==> BlockAddr(p, p.free[i]) != a
    ensures FreeListOk(words[a := w], p, head)
  {}

  function PushMem(m: Memory, r: Ref, off: nat): (m': Memory)
    requires r in m.refs
  {
    var p := m.refs[r];
    m.(words := m.words[p.page + off := PushWord(p.page, p.head)],
       refs := m.refs[r := p.(head := off, nfree := p.nfree + 1)])
  }

  lemma PushRep(m: Memory, v: View, r: Ref, k: nat)
    requires Rep(m, v) && ViewOk(v) && r in v.pages && k < Blocks(v.pages[r].blk) && k !in v.pages[r].free
    ensures Rep(PushMem(m, r, Off(v.pages[r].blk, k)), Pushed(v, r, k))
    ensures PushWord(m.refs[r].page, m.refs[r].head) != BlockAddr(v.pages[r], k)
  {
    hide Off, FreeListOk, ViewOk, Rep;
    PageAt(m, v, r);
    var p, off := v.pages[r], Off(v.pages[r].blk, k);
    FreePush(m.words, p, m.refs[r].head, k);
    var m' := PushMem(m, r, off);
    forall q | q in v.pages && q != r
      ensures q in m.refs && PageRep(m, q, v.pages[q]) && FreeListOk(m'.words, v.pages[q], m.refs[q].head)
    {
      PushElsewhere(m, v, r, k, q);
    }
    RefsRep(m, m', v, Pushed(v, r, k), r);
  }

  /** The first word of a block of one page is on no other page's free list. */
  lemma PushElsewhere(m: Memory, v: View, r: Ref, k: nat, q: Ref)
    requires Rep(m, v) && ViewOk(v) && r in v.pages && k < Blocks(v.pages[r].blk) && q in v.pages && q != r
    ensures r in m.refs && q in m.refs && PageRep(m, q, v.pages[q])
    ensures FreeListOk(PushMem(m, r, Off(v.pages[r].blk, k)).words, v.pages[q], m.refs[q].head)
  {
    hide Off, FreeListOk, ViewOk, Rep;
    PageAt(m, v, r);
    PageAt(m, v, q);
    var p := v.pages[r];
    forall i | 0 <= i < |v.pages[q].free| ensures BlockAddr(v.pages[q], v.pages[q].free[i]) != BlockAddr(p, k) {
      BlocksDiffer(v, q, v.pages[q].free[i], r, k);
    }
    FreeListKeeps(m.words, v.pages[q], m.refs[q].head, BlockAddr(p, k), PushWord(p.addr, m.refs[r].head));
  }

  // ---- A new page ----

  /** Thread the free list of a new page, last block first; words elsewhere stay. */
  method ThreadPage(words: map<int, int>, addr: nat, b: nat) returns (words': map<int, int>, head: int)
    requires b < NSIZES && addr > 0 && P.Aligned(addr)
    ensures FreeListOk(words', Page(addr, b, Descending(Blocks(b))), head)
    ensures forall a :: a in words && !(addr <= a < addr + PAGE_SIZE) ==> a in words' && words'[a] == words[a]
    ensures head == Off(b, Blocks(b) - 1)
  {
    SizeFacts(b);
    hide Off, Size, P.Aligned, FreeListOk, Descending;
    var n := PAGE_SIZE / Size(b);
    FreeFirst(words, addr, b);
    words' := words[addr + Off(b, 0) := 0];
    var i := 1;
    while i < n
      invariant 1 <= i <= n
      invariant FreeListOk(words', Page(addr, b, Descending(i)), Off(b, i - 1))
      invariant forall a :: a in words && !(addr <= a < addr + PAGE_SIZE) ==> a in words' && words'[a] == words[a]
    {
      FreeNext(words', addr, b, i);
      words' := words'[addr + Off(b, i) := addr + Off(b, i - 1)];
      i := i + 1;
    }
    head := Off(b, i - 1);
  }

  lemma FreeFirst(words: map<int, int>, addr: nat, b: nat)
    requires b < NSIZES && addr > 0 && P.Aligned(addr)
    ensures FreeListOk(words[addr + Off(b, 0) := 0], Page(addr, b, Descending(1)), Off(b, 0)) && Off(b, 0) < PAGE_SIZE
  {}

  lemma FreeNext(words: map<int, int>, addr: nat, b: nat, i: nat)
    requires b < NSIZES && addr > 0 && P.Aligned(addr) && 1 <= i < Blocks(b)
    requires FreeListOk(words, Page(addr, b, Descending(i)), Off(b, i - 1))
    ensures Off(b, i) < PAGE_SIZE
    ensures FreeListOk(words[addr + Off(b, i) := addr + Off(b, i - 1)], Page(addr, b, Descending(i + 1)), Off(b, i))
  {
    SizeFacts(b);
    OffFacts(b, i);
    OffFacts(b, i - 1);
    FreePush(words, Page(addr, b, Descending(i)), Off(b, i - 1), i);
    assert [i] + Descending(i) == Descending(i + 1);
  }

  /** A pageref for the new page goes to the front of both lists. */
  function InstallMem(m: Memory, r: Ref, addr: nat, b: nat, words: map<int, int>, head: int): (m': Memory)
    requires b < |m.sizebases| == NSIZES
  {
    Memory(m.refs[r := PageRef(addr, b, head, Blocks(b), m.sizebases[b], m.allbase)],
           m.sizebases[b := To(r)], To(r), words)
  }

  lemma InstallRep(m: Memory, v: View, r: Ref, addr: nat, b: nat, words: map<int, int>, head: int)
    requires Rep(m, v) && ViewOk(v) && r !in v.pages && b < NSIZES && addr > 0 && P.Aligned(addr)
    requires forall q :: q in v.pages ==> v.pages[q].addr != addr
    requires FreeListOk(words, Page(addr, b, Descending(Blocks(b))), head)
    requires forall a :: a in m.words && !(addr <= a < addr + PAGE_SIZE) ==> a in words && words[a] == m.words[a]
    ensures Rep(InstallMem(m, r, addr, b, words, head), Installed(v, r, addr, b))
  {
    var m', v' := InstallMem(m, r, addr, b, words, head), Installed(v, r, addr, b);
    forall q | q in v.pages ensures PageRep(m', q, v.pages[q]) {
      assert PageRep(m, q, v.pages[q]) && PageOk(v.pages[q]);
      AlignedApart(v.pages[q].addr, addr);
      FreeListElsewhere(m.words, words, v.pages[q], m.refs[q].head, addr);
    }
    hide FreeListOk, P.Aligned, PageOk;
    forall c | 0 <= c < NSIZES ensures SameLinks(m', v'.same[c]) && m'.sizebases[c] == LinkAt(v'.same[c], 0) {
      PrependSame(m, m', v.same[c], r);
    }
    PrependAll(m, m', v.all, r);
  }

  lemma FreeListElsewhere(words: map<int, int>, words': map<int, int>, p: Page, head: int, addr: nat)
    requires PageOk(p) && FreeListOk(words, p, head) && (p.addr + PAGE_SIZE <= addr || addr + PAGE_SIZE <= p.addr)
    requires forall a :: a in words && !(addr <= a < addr + PAGE_SIZE) ==> a in words' && words'[a] == words[a]
    ensures FreeListOk(words', p, head)
  {}

  lemma PrependSame(m: Memory, m': Memory, s: seq<Ref>, r: Ref)
    requires SameLinks(m, s) && r !in s && r in m'.refs
    requires forall q :: q in m.refs && q != r ==> q in m'.refs && m'.refs[q] == m.refs[q]
    ensures SameLinks(m', s)
    ensures m'.refs[r].nextSame == LinkAt(s, 0) ==> SameLinks(m', [r] + s)
  {
    var s' := [r] + s;
    forall i | 0 <= i < |s| ensures At(s, i) in m'.refs && m'.refs[At(s, i)].nextSame == LinkAt(s, i + 1) {
      assert At(s, i) in s;
    }
    forall i | 0 <= i < |s'| && m'.refs[r].nextSame == LinkAt(s, 0)
      ensures At(s', i) in m'.refs && m'.refs[At(s', i)].nextSame == LinkAt(s', i + 1)
    {
      if i > 0 { assert At(s', i) == At(s, i - 1); }
    }
  }

  lemma PrependAll(m: Memory, m': Memory, s: seq<Ref>, r: Ref)
    requires AllLinks(m, s) && r !in s && r in m'.refs && m'.refs[r].nextAll == LinkAt(s, 0)
    requires forall q :: q in m.refs && q != r ==> q in m'.refs && m'.refs[q] == m.refs[q]
    ensures AllLinks(m', [r] + s)
  {
    var s' := [r] + s;
    forall i | 0 <= i < |s'| ensures At(s', i) in m'.refs && m'.refs[At(s', i)].nextAll == LinkAt(s', i + 1) {
      if i > 0 { assert At(s', i) == At(s, i - 1) && At(s, i - 1) in s; }
    }
  }

  // ---- Taking a page off the lists ----

  /** Whatever pointed at the i-th page of its size, the list head or the page before it, points past it. */
  function CutSame(m: Memory, b: nat, s: seq<Ref>, i: nat): (m': Memory)
    requires b < |m.sizebases| && i < |s| && (i > 0 ==> s[i - 1] in m.refs)
  {
    if i == 0 then m.(sizebases := m.sizebases[b := LinkAt(s, 1)])
    else m.(refs := m.refs[s[i - 1] := m.refs[s[i - 1]].(nextSame := LinkAt(s, i + 1))])
  }

  function CutAll(m: Memory, s: seq<Ref>, i: nat): (m': Memory)
    requires i < |s| && (i > 0 ==> s[i - 1] in m.refs)
  {
    if i == 0 then m.(allbase := LinkAt(s, 1))
    else m.(refs := m.refs[s[i - 1] := m.refs[s[i - 1]].(nextAll := LinkAt(s, i + 1))])
  }

  lemma CutSameLinks(m: Memory, b: nat, s: seq<Ref>, i: nat)
    requires b < |m.sizebases| && i < |s| && SameLinks(m, s) && Distinct(s) && m.sizebases[b] == LinkAt(s, 0)
    ensures i > 0 ==> s[i - 1] in m.refs
    ensures var m', s' := CutSame(m, b, s, i), s[..i] + s[i + 1..];
            SameLinks(m', s') && m'.sizebases[b] == LinkAt(s', 0)
  {
    var s' := s[..i] + s[i + 1..];
    if i > 0 { assert At(s, i - 1) == s[i - 1]; }
    var m' := CutSame(m, b, s, i);
    forall j | 0 <= j < |s'| ensures At(s', j) in m'.refs && m'.refs[At(s', j)].nextSame == LinkAt(s', j + 1) {
      var k := if j < i then j else j + 1;
      assert At(s', j) == At(s, k);
    }
  }

  lemma CutAllLinks(m: Memory, s: seq<Ref>, i: nat)
    requires i < |s| && AllLinks(m, s) && Distinct(s) && m.allbase == LinkAt(s, 0)
    ensures i > 0 ==> s[i - 1] in m.refs
    ensures var m', s' := CutAll(m, s, i), s[..i] + s[i + 1..];
            AllLinks(m', s') && m'.allbase == LinkAt(s', 0)
  {
    var s' := s[..i] + s[i + 1..];
    if i > 0 { assert At(s, i - 1) == s[i - 1]; }
    var m' := CutAll(m, s, i);
    forall j | 0 <= j < |s'| ensures At(s', j) in m'.refs && m'.refs[At(s', j)].nextAll == LinkAt(s', j + 1) {
      var k := if j < i then j else j + 1;
      assert At(s', j) == At(s, k);
    }
  }

  /** Links of lists that a change does not touch. */
  lemma SameLinksKeep(m: Memory, m': Memory, s: seq<Ref>)
    requires SameLinks(m, s)
    requires forall q :: q in s && q in m.refs ==> q in m'.refs && m'.refs[q].nextSame == m.refs[q].nextSame
    ensures SameLinks(m', s)
  {}

  lemma AllLinksKeep(m: Memory, m': Memory, s: seq<Ref>)
    requires AllLinks(m, s)
    requires forall q :: q in s && q in m.refs ==> q in m'.refs && m'.refs[q].nextAll == m.refs[q].nextAll
    ensures AllLinks(m', s)
  {}

  /** remove_lists and freepageref: page r, i-th of its size and j-th of all, is gone. */
  function DropMem(m: Memory, v: View, r: Ref, i: nat, j: nat): (m': Memory)
    requires r in v.pages && v.pages[r].blk < |v.same| && v.pages[r].blk < |m.sizebases|
    requires i < |v.same[v.pages[r].blk]| && j < |v.all|
    requires (i > 0 ==> v.same[v.pages[r].blk][i - 1] in m.refs) && (j > 0 ==> v.all[j - 1] in m.refs)
  {
    var b := v.pages[r].blk;
    var m1 := CutAll(CutSame(m, b, v.same[b], i), v.all, j);
    m1.(refs := m1.refs - {r})
  }

  lemma DropRep(m: Memory, v: View, r: Ref, i: nat, j: nat)
    requires Rep(m, v) && ViewOk(v) && r in v.pages
    requires i < |v.same[v.pages[r].blk]| && v.same[v.pages[r].blk][i] == r
    requires j < |v.all| && v.all[j] == r
    ensures (i > 0 ==> v.same[v.pages[r].blk][i - 1] in m.refs) && (j > 0 ==> v.all[j - 1] in m.refs)
    ensures Rep(DropMem(m, v, r, i, j), Removed(v, r))
  {
    var b := v.pages[r].blk;
    CutSameLinks(m, b, v.same[b], i);
    CutAllLinks(m, v.all, j);
    var m' := DropMem(m, v, r, i, j);
    DropSame(m, v, r, i, j);
    DropAll(m, v, r, i, j);
    DropPages(m, v, r, i, j);
    hide PageRep, SameLinks, AllLinks, ViewOk;
  }

  lemma DropPages(m: Memory, v: View, r: Ref, i: nat, j: nat)
    requires Rep(m, v) && ViewOk(v) && r in v.pages && i < |v.same[v.pages[r].blk]| && j < |v.all|
    requires (i > 0 ==> v.same[v.pages[r].blk][i - 1] in m.refs) && (j > 0 ==> v.all[j - 1] in m.refs)
    ensures var m' := DropMem(m, v, r, i, j);
            && m'.refs.Keys == m.refs.Keys - {r} && |m'.sizebases| == NSIZES
            && (forall q :: q in v.pages && q != r ==> PageRep(m', q, v.pages[q]))
  {
    hide SameLinks, AllLinks, FreeListOk;
    var m' := DropMem(m, v, r, i, j);
    forall q | q in v.pages && q != r ensures PageRep(m', q, v.pages[q]) { assert PageRep(m, q, v.pages[q]); }
  }

  lemma DropSame(m: Memory, v: View, r: Ref, i: nat, j: nat)
    requires Rep(m, v) && ViewOk(v) && r in v.pages
    requires i < |v.same[v.pages[r].blk]| && v.same[v.pages[r].blk][i] == r && j < |v.all| && v.all[j] == r
    requires (i > 0 ==> v.same[v.pages[r].blk][i - 1] in m.refs) && (j > 0 ==> v.all[j - 1] in m.refs)
    ensures var m', v' := DropMem(m, v, r, i, j), Removed(v, r);
            forall c :: 0 <= c < NSIZES ==> SameLinks(m', v'.same[c]) && m'.sizebases[c] == LinkAt(v'.same[c], 0)
  {
    forall c | 0 <= c < NSIZES
      ensures SameLinks(DropMem(m, v, r, i, j), Removed(v, r).same[c])
      ensures DropMem(m, v, r, i, j).sizebases[c] == LinkAt(Removed(v, r).same[c], 0)
    {
      if c == v.pages[r].blk { DropOwn(m, v, r, i, j); } else { DropOther(m, v, r, i, j, c); }
    }
  }

  lemma DropOwn(m: Memory, v: View, r: Ref, i: nat, j: nat)
    requires Rep(m, v) && ViewOk(v) && r in v.pages
    requires i < |v.same[v.pages[r].blk]| && v.same[v.pages[r].blk][i] == r && j < |v.all| && v.all[j] == r
    requires (i > 0 ==> v.same[v.pages[r].blk][i - 1] in m.refs) && (j > 0 ==> v.all[j - 1] in m.refs)
    ensures var m', v', b := DropMem(m, v, r, i, j), Removed(v, r), v.pages[r].blk;
            SameLinks(m', v'.same[b]) && m'.sizebases[b] == LinkAt(v'.same[b], 0)
  {
    var b := v.pages[r].blk;
    var s := v.same[b];
    assert Distinct(s) && s[i] in s && SameLinks(m, s) && m.sizebases[b] == LinkAt(s, 0) && |m.sizebases| == NSIZES;
    hide Rep, ViewOk;
    CutSameLinks(m, b, s, i);
    WithoutFacts(s, r, i);
    WithoutDistinct(s, r);
    hide SameLinks, Without, Distinct, CutSame;
    DropLinks(CutSame(m, b, s, i), Without(s, r), v.all, j, r);
  }

  lemma DropLinks(m: Memory, s: seq<Ref>, all: seq<Ref>, j: nat, r: Ref)
    requires SameLinks(m, s) && r !in s && j < |all| && (j > 0 ==> all[j - 1] in m.refs)
    ensures var m1 := CutAll(m, all, j);
            SameLinks(m1.(refs := m1.refs - {r}), s) && m1.sizebases == m.sizebases
  {}

  lemma DropOther(m: Memory, v: View, r: Ref, i: nat, j: nat, c: nat)
    requires Rep(m, v) && ViewOk(v) && r in v.pages && c < NSIZES && c != v.pages[r].blk
    requires i < |v.same[v.pages[r].blk]| && v.same[v.pages[r].blk][i] == r && j < |v.all| && v.all[j] == r
    requires (i > 0 ==> v.same[v.pages[r].blk][i - 1] in m.refs) && (j > 0 ==> v.all[j - 1] in m.refs)
    ensures var m', v' := DropMem(m, v, r, i, j), Removed(v, r);
            SameLinks(m', v'.same[c]) && m'.sizebases[c] == LinkAt(v'.same[c], 0)
  {
    var s := v.same[v.pages[r].blk];
    assert i > 0 ==> s[i - 1] in s;
    hide PageRep, PageOk, AllLinks, SameLinks;
    assert SameLinks(m, v.same[c]);
    SameLinksKeep(m, DropMem(m, v, r, i, j), v.same[c]);
  }

  lemma DropAll(m: Memory, v: View, r: Ref, i: nat, j: nat)
    requires Rep(m, v) && ViewOk(v) && r in v.pages
    requires i < |v.same[v.pages[r].blk]| && v.same[v.pages[r].blk][i] == r && j < |v.all| && v.all[j] == r
    requires (i > 0 ==> v.same[v.pages[r].blk][i - 1] in m.refs) && (j > 0 ==> v.all[j - 1] in m.refs)
    ensures var m', v' := DropMem(m, v, r, i, j), Removed(v, r);
            AllLinks(m', v'.all) && m'.allbase == LinkAt(v'.all, 0)
  {
    var b := v.pages[r].blk;
    var m1 := CutSame(m, b, v.same[b], i);
    AllLinksKeep(m, m1, v.all);
    CutAllLinks(m1, v.all, j);
    WithoutFacts(v.all, r, j);
    WithoutDistinct(v.all, r);
    hide PageRep, PageOk, SameLinks;
    AllLinksKeep(CutAll(m1, v.all, j), DropMem(m, v, r, i, j), Removed(v, r).all);
  }

  // ---- The code, between taking the heap lock and letting go of it ----

  /** How kfree of an address ends; BadAddress and BadRoots are panics, of subpage_kfree and of freepageref. */
  datatype Freeing = NotOurs | BadAddress | BadRoots | Kept | GiveBack(page: nat)

  /** The pagerefs are in order, and those of heap pages are out. */
  ghost predicate RefsOk(v: View, refs: P.State)
  {
    P.Valid(refs) && forall r :: r in v.pages ==> P.IsOut(refs, r)
  }

  /** Block k of page r is the block at address ptr. */
  ghost predicate IsBlock(v: View, ptr: nat, r: Ref, k: nat)
  {
    r in v.pages && v.pages[r].blk < NSIZES && k < Blocks(v.pages[r].blk) && ptr == BlockAddr(v.pages[r], k)
  }

  predicate OnPage(p: Page, ptr: nat) { p.addr <= ptr < p.addr + PAGE_SIZE }

  /**
   What subpage_kfree of an address does to the pages and the pagerefs: nothing if the address is on no
   heap page or, which is a panic, on one and no block's.  Else block k of page r is free again; if that
   was the last one, the page and its pageref go, unless freepageref panics.
   */
  ghost predicate FreesBlock(v: View, v': View, refs: P.State, refs': P.State, ptr: nat, res: Freeing, r: Ref, k: nat)
  {
    match res
    case NotOurs => v' == v && refs' == refs && forall q :: q in v.pages ==> !OnPage(v.pages[q], ptr)
    case BadAddress =>
      && v' == v && refs' == refs && (exists q :: q in v.pages && OnPage(v.pages[q], ptr))
      && (forall q, n :: !IsBlock(v, ptr, q, n))
    case Kept =>
      && IsBlock(v, ptr, r, k) && |v.pages[r].free| + 1 < Blocks(v.pages[r].blk)
      && v' == Pushed(v, r, k) && refs' == refs
    case GiveBack(page) =>
      && IsBlock(v, ptr, r, k) && |v.pages[r].free| + 1 == Blocks(v.pages[r].blk)
      && v.pages[r].blk < |v.same| && v' == Removed(Pushed(v, r, k), r) && page == v.pages[r].addr
      && P.Next(refs, refs', P.Free(r), P.NoSlot)
    case BadRoots =>
      && IsBlock(v, ptr, r, k) && |v.pages[r].free| + 1 == Blocks(v.pages[r].blk)
      && r.root < |refs.roots| && !P.CleanBefore(refs.roots, r.root)
  }

  class KernelHeap {
    var m: Memory
    ghost var v: View
    var roots: seq<P.Root>
    ghost var status: map<Ref, P.Status>

    ghost predicate Valid()
      reads this
    {
      Rep(m, v) && ViewOk(v) && RefsOk(v, Refs())
    }

    ghost function Refs(): (s: P.State)
      reads this
    {
      P.State(roots, status)
    }

    /** No page, no list, no pageref. */
    constructor ()
      ensures Valid() && v == NoPages() && P.Started(Refs())
    {
      m := Memory(map[], seq(NSIZES, b => Null), Null, map[]);
      v := NoPages();
      roots := seq(P.ROOTS, w => P.Root(0, seq(P.ENTRIES, i => false), 0));
      status := map[];
      new;
      P.StartedValid(Refs());
    }

    /** allocpageref up to where it returns or lets go of the lock. */
    method ReserveRef(ghost t: P.Tid) returns (slot: P.Slot, got: P.Slot)
      requires Valid()
      modifies this`roots, this`status
      ensures Valid() && P.Next(old(Refs()), Refs(), P.Reserve(t, slot), got)
    {
      assert P.Valid(Refs());
      ghost var before := Refs();
      slot := P.Search(roots);
      got := P.NoSlot;
      if slot.Slot? {
        if roots[slot.r.root].page != 0 { got := slot; }
        status := status[slot.r := if got.Slot? then P.Out else P.Waiting(t)];
        roots := P.SetBit(roots, slot.r, true);
      }
      hide P.Valid, P.Next, Rep, ViewOk;
      RefsAfter(v, before, Refs(), P.Reserve(t, slot), got);
    }

    /** The rest of it, with the page that alloc_kpages gave for the root, 0 if none. */
    method FinishRef(r: Ref, va: nat) returns (got: P.Slot)
      requires Valid() && r in status && status[r].Waiting? && (va == 0 || P.FreshPage(Refs(), va))
      modifies this`roots, this`status
      ensures Valid() && P.Next(old(Refs()), Refs(), P.Finish(r, va), got)
    {
      assert P.Valid(Refs());
      ghost var before := Refs();
      if roots[r.root].page == 0 && va != 0 { roots := roots[r.root := roots[r.root].(page := va)]; }
      got := if roots[r.root].page == 0 then P.NoSlot else P.Slot(r);
      status := status[r := if got.Slot? then P.Out else P.Lost];
      hide P.Valid, P.Next, Rep, ViewOk;
      RefsAfter(v, before, Refs(), P.Finish(r, va), got);
    }

    /** The first page of a size with a free block. */
    method FindFree(b: nat) returns (l: Link, ghost i: nat)
      requires Valid() && b < NSIZES
      ensures i <= |v.same[b]| && l == LinkAt(v.same[b], i)
      ensures forall j :: 0 <= j < i ==> v.pages[v.same[b][j]].free == []
      ensures l.To? ==> l.r in v.pages && v.pages[l.r].free != [] && v.pages[l.r].blk == b
    {
      hide FreeListOk, PageOk, AllLinks, RefsOk;
      l, i := m.sizebases[b], 0;
      while l.To?
        invariant i <= |v.same[b]| && l == LinkAt(v.same[b], i)
        invariant forall j :: 0 <= j < i ==> v.pages[v.same[b][j]].free == []
        decreases |v.same[b]| - i
      {
        assert SameLinks(m, v.same[b]) && At(v.same[b], i) == l.r && l.r in v.same[b];
        assert PageRep(m, l.r, v.pages[l.r]);
        assert m.refs[l.r].blktype == b;
        if m.refs[l.r].nfree > 0 { return; }
        l, i := m.refs[l.r].nextSame, i + 1;
      }
    }

    /** doalloc */
    method TakeBlock(r: Ref) returns (ptr: nat)
      requires Valid() && r in v.pages && v.pages[r].free != []
      modifies this`m, this`v
      ensures Valid() && v == Popped(old(v), r)
      ensures ptr == BlockAddr(old(v).pages[r], old(v).pages[r].free[0])
    {
      hide Rep, ViewOk, Off;
      PopRep(m, v, r);
      PoppedOk(v, r);
      var x := m.refs[r];
      assert x.head < PAGE_SIZE;
      ptr := x.page + x.head;
      var next := m.words[ptr];
      assert if next != 0 then x.nfree - 1 > 0 && next - x.page < PAGE_SIZE else x.nfree - 1 == 0;
      m := PopMem(m, r);
      v := Popped(v, r);
    }

    /** subpage_kmalloc up to where it returns a block or lets go of the lock to get a page. */
    method AllocFromPages(b: nat) returns (ptr: nat, ghost r: Ref)
      requires Valid() && b < NSIZES
      modifies this`m, this`v
      ensures Valid()
      ensures ptr == 0 ==> v == old(v) && forall q :: q in v.pages && v.pages[q].blk == b ==> v.pages[q].free == []
      ensures ptr != 0 ==>
        && r in old(v).pages && old(v).pages[r].blk == b && old(v).pages[r].free != []
        && v == Popped(old(v), r) && ptr == BlockAddr(old(v).pages[r], old(v).pages[r].free[0])
    {
      var l, i := FindFree(b);
      if l.To? {
        r := l.r;
        assert PageOk(v.pages[r]);
        ptr := TakeBlock(l.r);
      } else {
        r := P.Ref(0, 0);
        ptr := 0;
        forall q | q in v.pages && v.pages[q].blk == b ensures v.pages[q].free == [] { assert q in v.same[b]; }
      }
    }

    /** The rest of subpage_kmalloc, with a page and a pageref in hand. */
    method AllocFromNewPage(r: Ref, addr: nat, b: nat) returns (ptr: nat)
      requires b < NSIZES == |v.same| && addr > 0 && P.Aligned(addr)
      requires Valid() && P.IsOut(Refs(), r) && r !in v.pages
      requires forall q :: q in v.pages ==> v.pages[q].addr != addr
      modifies this`m, this`v
      ensures Installed(old(v), r, addr, b).pages[r].free != []
      ensures Valid() && v == Popped(Installed(old(v), r, addr, b), r)
      ensures ptr == BlockAddr(Page(addr, b, []), Blocks(b) - 1)
    {
      SizeFacts(b);
      var words, head := ThreadPage(m.words, addr, b);
      InstallRep(m, v, r, addr, b, words, head);
      InstalledOk(v, r, addr, b);
      hide Rep, ViewOk;
      assert |m.sizebases| == NSIZES == |v.same| by { Sizes(m, v); }
      m := InstallMem(m, r, addr, b, words, head);
      v := Installed(v, r, addr, b);
      ptr := TakeBlock(r);
    }

    /** The page an address is on. */
    method FindPage(ptr: nat) returns (l: Link, ghost j: nat)
      requires Valid()
      ensures j <= |v.all| && l == LinkAt(v.all, j)
      ensures l.Null? ==> forall r :: r in v.pages ==> !OnPage(v.pages[r], ptr)
      ensures l.To? ==> l.r in v.pages && OnPage(v.pages[l.r], ptr)
    {
      hide FreeListOk, PageOk, SameLinks, RefsOk;
      l, j := m.allbase, 0;
      while l.To?
        invariant j <= |v.all| && l == LinkAt(v.all, j)
        invariant forall k :: 0 <= k < j ==> v.all[k] in v.pages && !OnPage(v.pages[v.all[k]], ptr)
        decreases |v.all| - j
      {
        assert AllLinks(m, v.all) && At(v.all, j) == l.r && l.r in v.all;
        assert PageRep(m, l.r, v.pages[l.r]);
        if m.refs[l.r].page <= ptr < m.refs[l.r].page + PAGE_SIZE { return; }
        l, j := m.refs[l.r].nextAll, j + 1;
      }
      forall r | r in v.pages ensures !OnPage(v.pages[r], ptr) { assert r in v.all; }
    }

    /** remove_lists: in each list, make whatever points at r point past it. */
    method RemoveLists(r: Ref) returns (ghost i: nat, ghost j: nat)
      requires r in v.pages && v.pages[r].blk < |v.same| && Valid()
      modifies this`m
      ensures i < |v.same[v.pages[r].blk]| && v.same[v.pages[r].blk][i] == r && j < |v.all| && v.all[j] == r
      ensures i > 0 ==> v.same[v.pages[r].blk][i - 1] in old(m).refs
      ensures j > 0 ==> v.all[j - 1] in old(m).refs
      ensures m == CutAll(CutSame(old(m), v.pages[r].blk, v.same[v.pages[r].blk], i), v.all, j)
    {
      hide RefsOk;
      assert r in v.all;
      i := UnlinkSame(r);
      AllLinksKeep(old(m), m, v.all);
      j := UnlinkAll(r);
    }

    /**
     subpage_kfree.  The caller frees a block that is not free already.  It panics on an address that is
     on a heap page and is no block's; and when the page is entirely free, exactly if freepageref does.
     */
    method FreeBlock(ptr: nat) returns (res: Freeing, ghost r: Ref, ghost k: nat)
      requires Valid()
      requires forall q, n :: IsBlock(v, ptr, q, n) ==> n !in v.pages[q].free
      modifies this
      ensures res.BadRoots? || Valid()
      ensures FreesBlock(old(v), v, old(Refs()), Refs(), ptr, res, r, k)
    {
      hide Rep, ViewOk, Off, P.Valid, P.Next, P.CleanBefore;
      var l, j := FindPage(ptr);
      r, k := P.Ref(0, 0), 0;
      if l.Null? { return NotOurs, r, k; }
      r := l.r;
      RepKnows(m, v, l.r);
      RefKnown(v, Refs(), l.r);
      var page, b := m.refs[l.r].page, m.refs[l.r].blktype;
      SizeFacts(b);
      if (ptr - page) % Size(b) != 0 {
        NoBlock(v, ptr, r);
        return BadAddress, r, k;
      }
      k := (ptr - page) / Size(b);
      OffBack(b, ptr - page);
      PushRep(m, v, l.r, k);
      PushedOk(v, l.r, k);
      assert PushWord(page, m.refs[l.r].head) != ptr;
      m := PushMem(m, l.r, ptr - page);
      v := Pushed(v, l.r, k);
      RepKnows(m, v, l.r);
      assert m.refs[l.r].nfree <= Blocks(b);
      if m.refs[l.r].nfree == PAGE_SIZE / Size(b) {
        var ok := Discard(l.r);
        return if ok then GiveBack(page) else BadRoots, r, k;
      }
      return Kept, r, k;
    }

    /** Take a page that is entirely free off the lists, and free its pageref. */
    method Discard(r: Ref) returns (ok: bool)
      requires Valid() && r in v.pages
      modifies this
      ensures r.root < |old(roots)| && (ok <==> P.CleanBefore(old(roots), r.root))
      ensures ok ==> Valid() && v == Removed(old(v), r) && P.Next(old(Refs()), Refs(), P.Free(r), P.NoSlot)
    {
      hide Rep, ViewOk, Removed, CutAll, CutSame, P.Valid, P.Next, P.CleanBefore, P.SetBit;
      ghost var m0, before := m, Refs();
      RefKnown(v, before, r);
      RepKnows(m, v, r);
      Sizes(m, v);
      ghost var i, j := RemoveLists(r);
      Dropped(m0, m, v, r, i, j);
      P.FreeStep(before, r);
      var o := P.FreeRef(roots, P.Addr(roots, r), status, r);
      if o.Failed? { return false; }
      roots, status := o.roots, status - {r};
      m := m.(refs := m.refs - {r});
      v := Removed(v, r);
      RefsAfter(v, before, Refs(), P.Free(r), P.NoSlot);
      return true;
    }

    method UnlinkAll(r: Ref) returns (ghost j: nat)
      requires r in v.all && AllLinks(m, v.all) && m.allbase == LinkAt(v.all, 0)
      modifies this`m
      ensures j < |v.all| && v.all[j] == r && (j > 0 ==> v.all[j - 1] in old(m).refs)
      ensures m == CutAll(old(m), v.all, j)
    {
      ghost var s := v.all;
      var prev, l := Null, m.allbase;
      j := 0;
      while l != To(r)
        invariant unchanged(this)
        invariant j < |s| && l == LinkAt(s, j) && forall k :: 0 <= k < j ==> s[k] != r
        invariant prev == if j == 0 then Null else To(s[j - 1])
        decreases |s| - j
      {
        assert At(s, j) == l.r;
        Later(s, r, j);
        prev, l, j := l, m.refs[l.r].nextAll, j + 1;
      }
      assert At(s, j) == r && (j > 0 ==> At(s, j - 1) == s[j - 1]);
      if prev.Null? { m := m.(allbase := m.refs[r].nextAll); }
      else { m := m.(refs := m.refs[prev.r := m.refs[prev.r].(nextAll := m.refs[r].nextAll)]); }
    }

    method UnlinkSame(r: Ref) returns (ghost i: nat)
      requires Valid() && r in v.pages
      modifies this`m
      ensures i < |v.same[v.pages[r].blk]| && v.same[v.pages[r].blk][i] == r
      ensures i > 0 ==> v.same[v.pages[r].blk][i - 1] in old(m).refs
      ensures m == CutSame(old(m), v.pages[r].blk, v.same[v.pages[r].blk], i)
    {
      hide FreeListOk, AllLinks, RefsOk;
      assert PageOk(v.pages[r]) && PageRep(m, r, v.pages[r]);
      var b := m.refs[r].blktype;
      ghost var s := v.same[b];
      assert r in s && SameLinks(m, s);
      var prev, l := Null, m.sizebases[b];
      i := 0;
      while l != To(r)
        invariant unchanged(this)
        invariant i < |s| && l == LinkAt(s, i) && forall k :: 0 <= k < i ==> s[k] != r
        invariant prev == if i == 0 then Null else To(s[i - 1])
        decreases |s| - i
      {
        assert At(s, i) == l.r;
        Later(s, r, i);
        prev, l, i := l, m.refs[l.r].nextSame, i + 1;
      }
      assert At(s, i) == r && (i > 0 ==> At(s, i - 1) == s[i - 1]);
      if prev.Null? { m := m.(sizebases := m.sizebases[b := m.refs[r].nextSame]); }
      else { m := m.(refs := m.refs[prev.r := m.refs[prev.r].(nextSame := m.refs[r].nextSame)]); }
    }
  }

  lemma Later(s: seq<Ref>, r: Ref, i: nat)
    requires r in s && i < |s| && forall k :: 0 <= k <= i ==> s[k] != r
    ensures i + 1 < |s|
  {}

  /** A misaligned address on a page is no block's. */
  lemma NoBlock(v: View, ptr: nat, r: Ref)
    requires ViewOk(v) && r in v.pages && OnPage(v.pages[r], ptr)
    requires v.pages[r].blk < NSIZES && (ptr - v.pages[r].addr) % Size(v.pages[r].blk) != 0
    ensures forall q, n :: !IsBlock(v, ptr, q, n)
  {
    forall q, n ensures !IsBlock(v, ptr, q, n) {
      if IsBlock(v, ptr, q, n) {
        OffFacts(v.pages[q].blk, n);
        if q != r { PagesApart(v, r, q); }
      }
    }
  }

  lemma RepKnows(m: Memory, v: View, r: Ref)
    requires Rep(m, v) && ViewOk(v) && r in v.pages
    ensures r in m.refs && m.refs[r].page == v.pages[r].addr && m.refs[r].blktype == v.pages[r].blk < NSIZES
    ensures m.refs[r].nfree == |v.pages[r].free|
  {}

  /** What remove_lists and freepageref leave. */
  lemma Dropped(m: Memory, m': Memory, v: View, r: Ref, i: nat, j: nat)
    requires Rep(m, v) && ViewOk(v) && r in v.pages
    requires i < |v.same[v.pages[r].blk]| && v.same[v.pages[r].blk][i] == r
    requires j < |v.all| && v.all[j] == r
    requires (i > 0 ==> v.same[v.pages[r].blk][i - 1] in m.refs) && (j > 0 ==> v.all[j - 1] in m.refs)
    requires m' == CutAll(CutSame(m, v.pages[r].blk, v.same[v.pages[r].blk], i), v.all, j)
    ensures v.pages[r].blk < |v.same| && Rep(m'.(refs := m'.refs - {r}), Removed(v, r)) && ViewOk(Removed(v, r))
    ensures Removed(v, r).pages == v.pages - {r}
  {
    DropRep(m, v, r, i, j);
    RemovedOk(v, r);
    hide Rep, ViewOk;
  }

  lemma RefKnown(v: View, refs: P.State, r: Ref)
    requires RefsOk(v, refs) && r in v.pages
    ensures P.IsRef(r) && r.root < |refs.roots| && P.IsOut(refs, r)
  {}

  /** A step of the pageref allocator keeps the pagerefs of heap pages out, unless it frees one. */
  lemma RefsAfter(v: View, refs: P.State, refs': P.State, m: P.Move, got: P.Slot)
    requires P.Valid(refs) && P.Next(refs, refs', m, got)
    requires forall r :: r in v.pages ==> P.IsOut(refs, r) && m != P.Free(r)
    ensures RefsOk(v, refs')
  {
    hide P.Valid, P.Next, P.IsOut;
    P.NextKeeps(refs, refs', m, got);
    forall r | r in v.pages ensures P.IsOut(refs', r) { P.OutAfter(refs, refs', m, got, r); }
  }

  lemma Sizes(m: Memory, v: View)
    requires Rep(m, v)
    ensures |m.sizebases| == NSIZES == |v.same|
  {}
}
