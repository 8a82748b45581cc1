/**
 The inverted page table: one entry per frame, and for each process the rank of
 its frames in the order they were added.  Ranks are kept by renumbering.
 */
module PageTable {

  const PAGE_SIZE := 4096
  const NONE := -1

  /** fifo is position_fifo. */
  datatype Entry = Entry(pid: int, vaddr: nat, status: nat, fifo: int)

  const FREE := Entry(NONE, 0, 0, 0)

  // ---- What the operations do ----

  /** The highest rank of a process among the first n frames, -1 if it has none of them. */
  function MaxRank(t: seq<Entry>, pid: int, n: nat): (r: int)
    requires n <= |t|
    ensures r >= -1
  {
    if n == 0 then -1
    else
      var r := MaxRank(t, pid, n - 1);
      if t[n - 1].pid == pid && t[n - 1].fifo > r then t[n - 1].fifo else r
  }

  lemma {:induction false} MaxRankFacts(t: seq<Entry>, pid: int, n: nat)
    requires n <= |t|
    ensures forall f :: 0 <= f < n && t[f].pid == pid ==> t[f].fifo <= MaxRank(t, pid, n)
    ensures MaxRank(t, pid, n) == -1 || exists f :: 0 <= f < n && t[f].pid == pid && t[f].fifo == MaxRank(t, pid, n)
    decreases n
  {
    if n == 0 {
    } else {
      MaxRankFacts(t, pid, n - 1);
    }
  }

  datatype Op =
    | Add(pid: int, vaddr: nat, f: nat, status: nat)    // page_table_add_entry, f the frame
    | Reset(f: nat)                                     // page_table_reset_entry
    | Tick                                              // lru_update_cnt

  predicate CanDo(t: seq<Entry>, op: Op)
  {
    match op
    case Add(pid, _, f, _) => pid != NONE && f < |t|
    case Reset(f) => f < |t|
    case Tick => true
  }

  /** What becomes of entry g of the table. */
  function EntryAfter(t: seq<Entry>, op: Op, g: nat): (e: Entry)
    requires CanDo(t, op) && g < |t|
  {
    match op
    case Add(pid, vaddr, f, status) => if g == f then Entry(pid, vaddr, status, MaxRank(t, pid, |t|) + 1) else t[g]
    case Reset(f) =>
      if g == f then (if t[f].pid == NONE && t[f].fifo < 0 then FREE.(fifo := -1) else FREE)
      else if t[g].pid == t[f].pid && t[g].fifo > t[f].fifo then t[g].(fifo := t[g].fifo - 1)
      else t[g]
    case Tick => if t[g].pid != NONE then t[g].(fifo := t[g].fifo + 1) else t[g]
  }

  ghost predicate After(t: seq<Entry>, t': seq<Entry>, op: Op)
    requires CanDo(t, op)
  {
    |t'| == |t| && forall g :: 0 <= g < |t| ==> t'[g] == EntryAfter(t, op, g)
  }

  /** A table that starts with all frames free, and the operations on it. */
  ghost predicate IsRun(ts: seq<seq<Entry>>, ops: seq<Op>)
  {
    && |ts| == |ops| + 1 && (forall f :: 0 <= f < |ts[0]| ==> ts[0][f] == FREE)
    && (forall i :: 0 <= i < |ops| ==> CanDo(ts[i], ops[i]) && After(ts[i], ts[i + 1], ops[i]))
  }

  // ---- First in, first out ----

  /** Which of the first i operations last added frame f, -1 if none did. */
  function AddedAt(ops: seq<Op>, i: nat, f: nat): (j: int)
    requires i <= |ops|
    ensures -1 <= j < i && (j >= 0 ==> ops[j].Add? && ops[j].f == f)
  {
    if i == 0 then -1 else if ops[i - 1].Add? && ops[i - 1].f == f then i - 1 else AddedAt(ops, i - 1, f)
  }

  /** Of the first i operations, the last one on frame f added it. */
  predicate IsAdded(ops: seq<Op>, i: nat, f: nat)
    requires i <= |ops|
    ensures IsAdded(ops, i, f) ==> AddedAt(ops, i, f) >= 0
  {
    i > 0 &&
    match ops[i - 1]
    case Add(_, _, g, _) => g == f || IsAdded(ops, i - 1, f)
    case Reset(g) => g != f && IsAdded(ops, i - 1, f)
    case Tick => IsAdded(ops, i - 1, f)
  }

  ghost predicate InUse(t: seq<Entry>, ops: seq<Op>, i: nat, f: nat)
    requires i <= |ops| && f < |t|
  {
    if !IsAdded(ops, i, f) then t[f].pid == NONE && t[f].fifo == 0
    else t[f].pid != NONE && t[f].fifo >= 0 && AddedAt(ops, i, f) >= 0 && AsAdded(t[f], ops[AddedAt(ops, i, f)])
  }

  /** Process, address and status are those of the addition. */
  predicate AsAdded(e: Entry, op: Op)
    requires op.Add?
  {
    e.pid == op.pid && e.vaddr == op.vaddr && e.status == op.status
  }

  /** Of two frames of one process, the one added first has the lower rank. */
  ghost predicate InOrder(t: seq<Entry>, ops: seq<Op>, i: nat, f: nat, g: nat)
    requires i <= |ops| && f < |t| && g < |t|
  {
    t[f].pid == t[g].pid != NONE && AddedAt(ops, i, f) < AddedAt(ops, i, g) ==> t[f].fifo < t[g].fifo
  }

  ghost predicate Fifo(t: seq<Entry>, ops: seq<Op>, i: nat)
    requires i <= |ops|
  {
    && (forall f :: 0 <= f < |t| ==> InUse(t, ops, i, f))
    && (forall f, g :: 0 <= f < |t| && 0 <= g < |t| ==> InOrder(t, ops, i, f, g))
  }

  lemma FifoKeeps(t: seq<Entry>, t': seq<Entry>, ops: seq<Op>, i: nat)
    requires i < |ops| && Fifo(t, ops, i) && CanDo(t, ops[i]) && After(t, t', ops[i])
    ensures Fifo(t', ops, i + 1)
  {
    var j := i + 1;
    forall f | 0 <= f < |t'| ensures InUse(t', ops, j, f) { UseKeeps(t, t', ops, i, f); }
    forall f, g | 0 <= f < |t'| && 0 <= g < |t'| ensures InOrder(t', ops, j, f, g) {
      OrderKeeps(t, t', ops, i, f, g);
    }
  }

  lemma UseKeeps(t: seq<Entry>, t': seq<Entry>, ops: seq<Op>, i: nat, f: nat)
    requires i < |ops| && Fifo(t, ops, i) && CanDo(t, ops[i]) && After(t, t', ops[i]) && f < |t|
    ensures InUse(t', ops, i + 1, f)
  {
    assert InUse(t, ops, i, f);
    if ops[i].Reset? { assert InUse(t, ops, i, ops[i].f); }
  }

  lemma OrderKeeps(t: seq<Entry>, t': seq<Entry>, ops: seq<Op>, i: nat, f: nat, g: nat)
    requires i < |ops| && Fifo(t, ops, i) && CanDo(t, ops[i]) && After(t, t', ops[i]) && f < |t| && g < |t|
    ensures InOrder(t', ops, i + 1, f, g)
  {
    assert InOrder(t, ops, i, f, g) && InUse(t, ops, i, f) && InUse(t, ops, i, g);
    match ops[i]
    case Add(pid, _, k, _) => MaxRankFacts(t, pid, |t|);
    case Reset(k) => assert InOrder(t, ops, i, f, k) && InOrder(t, ops, i, k, f) && InUse(t, ops, i, k);
    case Tick =>
  }

  lemma {:induction false} RunsFifo(ts: seq<seq<Entry>>, ops: seq<Op>, i: nat)
    requires IsRun(ts, ops) && i < |ts|
    ensures Fifo(ts[i], ops, i) && |ts[i]| == |ts[0]|
  {
    hide Fifo, EntryAfter;
    if i == 0 {
      StartsFifo(ts[0], ops);
    } else {
      RunsFifo(ts, ops, i - 1);
      FifoKeeps(ts[i - 1], ts[i], ops, i - 1);
    }
  }

  lemma StartsFifo(t: seq<Entry>, ops: seq<Op>)
    requires forall f :: 0 <= f < |t| ==> t[f] == FREE
    ensures Fifo(t, ops, 0)
  {}

  /** In every run, whatever was added over what, ranks are distinct and order a process's frames as they were added. */
  lemma FifoOrder(ts: seq<seq<Entry>>, ops: seq<Op>, i: nat, f: nat, g: nat)
    requires IsRun(ts, ops) && i < |ts| && f < |ts[i]| && g < |ts[i]| && f != g
    requires ts[i][f].pid == ts[i][g].pid != NONE
    ensures ts[i][f].fifo < ts[i][g].fifo <==> AddedAt(ops, i, f) < AddedAt(ops, i, g)
    ensures ts[i][f].fifo != ts[i][g].fifo && ts[i][f].fifo >= 0
  {
    RunsFifo(ts, ops, i);
    assert InOrder(ts[i], ops, i, f, g) && InOrder(ts[i], ops, i, g, f);
    assert InUse(ts[i], ops, i, f) && InUse(ts[i], ops, i, g);
  }

  /**
   In every run a frame is in use exactly if the last operation on it added it, and has the process,
   address and status of that operation.
   */
  lemma HasWhatWasAdded(ts: seq<seq<Entry>>, ops: seq<Op>, i: nat, f: nat)
    requires IsRun(ts, ops) && i < |ts| && f < |ts[i]|
    ensures ts[i][f].pid != NONE <==> IsAdded(ops, i, f)
    ensures IsAdded(ops, i, f) ==>
      var op := ops[AddedAt(ops, i, f)];
      op.f == f && ts[i][f].pid == op.pid && ts[i][f].vaddr == op.vaddr && ts[i][f].status == op.status
  {
    RunsFifo(ts, ops, i);
    assert InUse(ts[i], ops, i, f);
  }

  /** A frame of rank 0, which is what replacement picks, is its process's oldest. */
  lemma OldestFirst(ts: seq<seq<Entry>>, ops: seq<Op>, i: nat, f: nat, g: nat)
    requires IsRun(ts, ops) && i < |ts| && f < |ts[i]| && g < |ts[i]| && f != g
    requires ts[i][f].pid == ts[i][g].pid != NONE && ts[i][f].fifo == 0
    ensures AddedAt(ops, i, f) < AddedAt(ops, i, g)
  {
    FifoOrder(ts, ops, i, f, g);
    FifoOrder(ts, ops, i, g, f);
  }

  // ---- Consecutive ranks ----

  /** The frames of each process, oldest first, and the rank of the oldest. */
  datatype History = History(order: map<int, seq<nat>>, base: map<int, nat>) {
    function Order(pid: int): (q: seq<nat>) { if pid in order then order[pid] else [] }

    function Base(pid: int): (b: nat) { if pid in base then base[pid] else 0 }
  }

  ghost predicate Distinct(s: seq<nat>) { forall i, j :: 0 <= i < j < |s| ==> s[i] != s[j] }

  /** Ranks of process pid are consecutive, in the order its frames were added. */
  ghost predicate Ranked(t: seq<Entry>, pid: int, q: seq<nat>, b: nat)
  {
    && Distinct(q) && (forall f: nat :: f in q <==> f < |t| && t[f].pid == pid)
    && (forall i :: 0 <= i < |q| ==> q[i] < |t| && t[q[i]].fifo == b + i)
  }

  ghost predicate TableOk(t: seq<Entry>, h: History)
  {
    && (forall f :: 0 <= f < |t| && t[f].pid == NONE ==> t[f].fifo == 0)
    && (forall pid :: pid != NONE ==> Ranked(t, pid, h.Order(pid), h.Base(pid)))
  }

  lemma RankedAt(t: seq<Entry>, h: History, pid: int)
    requires TableOk(t, h) && pid != NONE
    ensures Ranked(t, pid, h.Order(pid), h.Base(pid))
  {}

  lemma Highest(t: seq<Entry>, pid: int, q: seq<nat>, b: nat)
    requires Ranked(t, pid, q, b)
    ensures MaxRank(t, pid, |t|) == if q == [] then -1 else b + |q| - 1
  {
    MaxRankFacts(t, pid, |t|);
    hide MaxRank;
    var last := MaxRank(t, pid, |t|);
    if q != [] { assert q[|q| - 1] in q; }
    if last != -1 {
      var f :| 0 <= f < |t| && t[f].pid == pid && t[f].fifo == last;
      assert f in q;
    }
  }

  predicate IsLowest(t: seq<Entry>, f: nat)
    requires f < |t|
  {
    forall g :: 0 <= g < |t| && t[g].pid == t[f].pid ==> t[f].fifo <= t[g].fifo
  }

  predicate IsHighest(t: seq<Entry>, f: nat)
    requires f < |t|
  {
    forall g :: 0 <= g < |t| && t[g].pid == t[f].pid ==> t[g].fifo <= t[f].fifo
  }

  /** Frame f is free, or is its process's oldest, or is the youngest of a process other than pid. */
  predicate AtAnEnd(t: seq<Entry>, pid: int, f: nat)
    requires f < |t|
  {
    t[f].pid == NONE || IsLowest(t, f) || (t[f].pid != pid && IsHighest(t, f))
  }

  function Added(h: History, pid: int, f: nat): (h': History)
  {
    History(h.order[pid := h.Order(pid) + [f]], if h.Order(pid) == [] then h.base[pid := 0] else h.base)
  }

  /** Process pid loses its oldest frame, but no other frame's rank changes. */
  function LostOldest(h: History, pid: int): (h': History)
    requires h.Order(pid) != []
  {
    History(h.order[pid := h.Order(pid)[1..]], h.base[pid := h.Base(pid) + 1])
  }

  function LostYoungest(h: History, pid: int): (h': History)
    requires h.Order(pid) != []
  {
    h.(order := h.order[pid := h.Order(pid)[..|h.Order(pid)| - 1]])
  }

  lemma AddKeeps(t: seq<Entry>, t': seq<Entry>, h: History, f: nat, e: Entry)
    requires TableOk(t, h) && f < |t| && t[f].pid == NONE && e.pid != NONE && t' == t[f := e]
    requires e.fifo == if h.Order(e.pid) == [] then 0 else h.Base(e.pid) + |h.Order(e.pid)|
    ensures TableOk(t', Added(h, e.pid, f))
  {
    var h' := Added(h, e.pid, f);
    forall pid | pid != NONE ensures Ranked(t', pid, h'.Order(pid), h'.Base(pid)) {
      assert Ranked(t, pid, h.Order(pid), h.Base(pid));
    }
  }

  /** The frame's place in its process's order. */
  lemma PlaceOf(t: seq<Entry>, h: History, f: nat) returns (i: nat)
    requires TableOk(t, h) && f < |t| && t[f].pid != NONE
    ensures i < |h.Order(t[f].pid)| && h.Order(t[f].pid)[i] == f && t[f].fifo == h.Base(t[f].pid) + i
    ensures IsLowest(t, f) <==> i == 0
    ensures IsHighest(t, f) <==> i == |h.Order(t[f].pid)| - 1
  {
    RankedAt(t, h, t[f].pid);
    hide TableOk;
    var q := h.Order(t[f].pid);
    assert f in q;
    i :| 0 <= i < |q| && q[i] == f;
    assert q[0] in q && q[|q| - 1] in q;
    forall g: nat | g < |t| && t[g].pid == t[f].pid ensures h.Base(t[f].pid) <= t[g].fifo < h.Base(t[f].pid) + |q| {
      assert g in q;
    }
  }

  lemma RankSame(t: seq<Entry>, t': seq<Entry>, f: nat, pid: int, q: seq<nat>, b: nat)
    requires Ranked(t, pid, q, b) && f < |t| == |t'| && t' == t[f := t'[f]] && t[f].pid != pid && t'[f].pid != pid
    ensures Ranked(t', pid, q, b)
  {}

  lemma RankUp(t: seq<Entry>, pid: int, q: seq<nat>, b: nat)
    requires Ranked(t, pid, q, b) && q != [] && pid != NONE
    ensures q[0] < |t| && Ranked(t[q[0] := FREE], pid, q[1..], b + 1)
  {
    assert q[0] in q && q == [q[0]] + q[1..];
  }

  lemma RankDown(t: seq<Entry>, pid: int, q: seq<nat>, b: nat)
    requires Ranked(t, pid, q, b) && q != [] && pid != NONE
    ensures q[|q| - 1] < |t| && Ranked(t[q[|q| - 1] := FREE], pid, q[..|q| - 1], b)
  {
    assert q[|q| - 1] in q && q == q[..|q| - 1] + [q[|q| - 1]];
  }

  /** Taking the oldest or the youngest frame away, without renumbering, leaves consecutive ranks. */
  lemma OldestGone(t: seq<Entry>, h: History, f: nat)
    requires TableOk(t, h) && f < |t| && t[f].pid != NONE && h.Order(t[f].pid) != [] && h.Order(t[f].pid)[0] == f
    ensures TableOk(t[f := FREE], LostOldest(h, t[f].pid))
  {
    var t', h' := t[f := FREE], LostOldest(h, t[f].pid);
    forall pid | pid != NONE ensures Ranked(t', pid, h'.Order(pid), h'.Base(pid)) {
      hide Ranked;
      RankedAt(t, h, pid);
      if pid == t[f].pid {
        RankUp(t, pid, h.Order(pid), h.Base(pid));
      } else {
        RankSame(t, t', f, pid, h.Order(pid), h.Base(pid));
      }
    }
  }

  lemma YoungestGone(t: seq<Entry>, h: History, f: nat)
    requires TableOk(t, h) && f < |t| && t[f].pid != NONE && h.Order(t[f].pid) != []
    requires h.Order(t[f].pid)[|h.Order(t[f].pid)| - 1] == f
    ensures TableOk(t[f := FREE], LostYoungest(h, t[f].pid))
  {
    var t', h' := t[f := FREE], LostYoungest(h, t[f].pid);
    forall pid | pid != NONE ensures Ranked(t', pid, h'.Order(pid), h'.Base(pid)) {
      hide Ranked;
      RankedAt(t, h, pid);
      if pid == t[f].pid {
        RankDown(t, pid, h.Order(pid), h.Base(pid));
      } else {
        RankSame(t, t', f, pid, h.Order(pid), h.Base(pid));
      }
    }
  }

  /** The history after an addition to a free frame, or over one at an end of its process's order. */
  function AddedOver(t: seq<Entry>, h: History, pid: int, f: nat): (h': History)
    requires f < |t| && (t[f].pid != NONE ==> h.Order(t[f].pid) != [])
  {
    if t[f].pid == NONE then Added(h, pid, f)
    else if t[f].pid == pid then
      History(h.order[pid := h.Order(pid)[1..] + [f]], h.base[pid := h.Base(pid) + 1])
    else if h.Order(t[f].pid)[0] == f then Added(LostOldest(h, t[f].pid), pid, f)
    else Added(LostYoungest(h, t[f].pid), pid, f)
  }

  lemma OverKeeps(t: seq<Entry>, t': seq<Entry>, h: History, op: Op)
    requires TableOk(t, h) && op.Add? && CanDo(t, op) && After(t, t', op) && AtAnEnd(t, op.pid, op.f)
    ensures t[op.f].pid != NONE ==> h.Order(t[op.f].pid) != []
    ensures TableOk(t', AddedOver(t, h, op.pid, op.f))
  {
    hide TableOk, MaxRank, Ranked, IsLowest, IsHighest;
    var f, pid, e := op.f, op.pid, t'[op.f];
    assert t' == t[f := e];
    RankedAt(t, h, pid);
    Highest(t, pid, h.Order(pid), h.Base(pid));
    if t[f].pid == NONE {
      AddKeeps(t, t', h, f, e);
    } else {
      var i := PlaceOf(t, h, f);
      if t[f].pid == pid {
        Rotated(t, t', h, f);
      } else {
        OnceIn(t, h, t[f].pid);
        var t1 := t[f := FREE];
        assert t' == t1[f := e];
        if i == 0 { OldestGone(t, h, f); } else { YoungestGone(t, h, f); }
        AddKeeps(t1, t', if i == 0 then LostOldest(h, t[f].pid) else LostYoungest(h, t[f].pid), f, e);
      }
    }
  }

  /** A process's oldest frame becomes its youngest. */
  lemma Rotated(t: seq<Entry>, t': seq<Entry>, h: History, f: nat)
    requires TableOk(t, h) && f < |t| == |t'| && t' == t[f := t'[f]] && t'[f].pid == t[f].pid != NONE
    requires h.Order(t[f].pid) != [] && h.Order(t[f].pid)[0] == f
    requires t'[f].fifo == h.Base(t[f].pid) + |h.Order(t[f].pid)|
    ensures TableOk(t', AddedOver(t, h, t[f].pid, f))
  {
    var h' := AddedOver(t, h, t[f].pid, f);
    forall pid | pid != NONE ensures Ranked(t', pid, h'.Order(pid), h'.Base(pid)) {
      RankedAt(t, h, pid);
      if pid == t[f].pid {
        RankRotated(t, t', pid, h.Order(pid), h.Base(pid));
      } else {
        RankSame(t, t', f, pid, h.Order(pid), h.Base(pid));
      }
    }
  }

  lemma RankRotated(t: seq<Entry>, t': seq<Entry>, pid: int, q: seq<nat>, b: nat)
    requires Ranked(t, pid, q, b) && q != [] && q[0] < |t| == |t'| && t' == t[q[0] := t'[q[0]]]
    requires t'[q[0]].pid == pid == t[q[0]].pid && t'[q[0]].fifo == b + |q|
    ensures Ranked(t', pid, q[1..] + [q[0]], b + 1)
  {}

  /** Between two ranks of a process lie only ranks of the process. */
  lemma NoGap(t: seq<Entry>, h: History, f: nat, g: nat, r: int) returns (k: nat)
    requires TableOk(t, h) && f < |t| && g < |t| && t[f].pid == t[g].pid != NONE && t[f].fifo <= r <= t[g].fifo
    ensures k < |t| && t[k].pid == t[f].pid && t[k].fifo == r
  {
    var pid := t[f].pid;
    RankedAt(t, h, pid);
    var q, b := h.Order(pid), h.Base(pid);
    assert f in q && g in q;
    k := q[r - b];
    assert k in q;
  }

  /** An addition keeps ranks consecutive exactly if the frame is free or at an end of its process's order. */
  lemma AddExact(t: seq<Entry>, t': seq<Entry>, h: History, op: Op)
    requires TableOk(t, h) && op.Add? && CanDo(t, op) && After(t, t', op)
    ensures (exists h' :: TableOk(t', h')) <==> AtAnEnd(t, op.pid, op.f)
  {
    hide TableOk, MaxRank;
    if AtAnEnd(t, op.pid, op.f) {
      OverKeeps(t, t', h, op);
    } else if h' :| TableOk(t', h') {
      Gapped(t, t', h, h', op);
    }
  }

  lemma Gapped(t: seq<Entry>, t': seq<Entry>, h: History, h': History, op: Op)
    requires TableOk(t, h) && op.Add? && CanDo(t, op) && After(t, t', op) && TableOk(t', h')
    ensures AtAnEnd(t, op.pid, op.f)
  {
    var f, pid := op.f, t[op.f].pid;
    if !AtAnEnd(t, op.pid, f) {
      RankedAt(t, h, pid);
      Highest(t, pid, h.Order(pid), h.Base(pid));
      var i := PlaceOf(t, h, f);
      hide TableOk, MaxRank, IsLowest, IsHighest;
      var q := h.Order(pid);
      var top := if pid == op.pid then f else q[|q| - 1];
      assert q[0] != f && q[0] in q && q[|q| - 1] in q;
      var k := NoGap(t', h', q[0], top, t[f].fifo);
      RankGone(t, t', h, op, i, k);
    }
  }

  /** The rank that the frame had is nobody's any more. */
  lemma RankGone(t: seq<Entry>, t': seq<Entry>, h: History, op: Op, i: nat, k: nat)
    requires TableOk(t, h) && op.Add? && CanDo(t, op) && After(t, t', op) && t[op.f].pid != NONE && k < |t|
    requires i < |h.Order(t[op.f].pid)| && h.Order(t[op.f].pid)[i] == op.f
    ensures t'[k].pid == t[op.f].pid ==> t'[k].fifo != t[op.f].fifo
  {
    hide TableOk, MaxRank, Ranked;
    var pid := t[op.f].pid;
    var q := h.Order(pid);
    RankedAt(t, h, pid);
    Highest(t, pid, q, h.Base(pid));
    RanksDiffer(t, pid, q, h.Base(pid), i, k);
    assert t'[k] == EntryAfter(t, op, k);
  }

  lemma RanksDiffer(t: seq<Entry>, pid: int, q: seq<nat>, b: nat, i: nat, k: nat)
    requires Ranked(t, pid, q, b) && i < |q| && k < |t|
    ensures q[i] < |t| && t[q[i]].fifo == b + i
    ensures k != q[i] && t[k].pid == pid ==> t[k].fifo != b + i
  {
    if k != q[i] && t[k].pid == pid { assert k in q; }
  }

  // ---- Resetting and ticking ----

  function Without(q: seq<nat>, i: nat): (q': seq<nat>)
    requires i < |q|
  {
    q[..i] + q[i + 1..]
  }

  function Dropped(h: History, pid: int, i: nat): (h': History)
    requires i < |h.Order(pid)|
  {
    h.(order := h.order[pid := Without(h.Order(pid), i)])
  }

  lemma DropKeeps(t: seq<Entry>, t': seq<Entry>, h: History, f: nat, i: nat)
    requires TableOk(t, h) && f < |t| && t[f].pid != NONE && i < |h.Order(t[f].pid)| && h.Order(t[f].pid)[i] == f
    requires After(t, t', Reset(f))
    ensures TableOk(t', Dropped(h, t[f].pid, i))
  {
    var h' := Dropped(h, t[f].pid, i);
    forall pid | pid != NONE ensures Ranked(t', pid, h'.Order(pid), h'.Base(pid)) {
      hide Ranked, After;
      RankedAt(t, h, pid);
      if pid == t[f].pid {
        DropRanked(t, t', pid, h.Order(pid), h.Base(pid), i);
      } else {
        DropOthers(t, t', f, pid, h.Order(pid), h.Base(pid));
      }
    }
  }

  lemma DropRanked(t: seq<Entry>, t': seq<Entry>, pid: int, q: seq<nat>, b: nat, i: nat)
    requires Ranked(t, pid, q, b) && i < |q| && pid != NONE && q[i] < |t| && t[q[i]].pid == pid
    requires After(t, t', Reset(q[i]))
    ensures Ranked(t', pid, Without(q, i), b)
  {}

  lemma DropOthers(t: seq<Entry>, t': seq<Entry>, f: nat, pid: int, q: seq<nat>, b: nat)
    requires Ranked(t, pid, q, b) && f < |t| && t[f].pid != pid && pid != NONE && After(t, t', Reset(f))
    ensures Ranked(t', pid, q, b)
  {}

  /** Resetting a free entry changes nothing. */
  lemma SameTable(t: seq<Entry>, t': seq<Entry>, h: History, f: nat)
    requires TableOk(t, h) && f < |t| && t[f].pid == NONE && After(t, t', Reset(f))
    ensures TableOk(t', h)
  {
    assert t[f].fifo == 0;
    assert forall g :: 0 <= g < |t| && g != f ==> t'[g] == t[g];
    forall pid | pid != NONE ensures Ranked(t', pid, h.Order(pid), h.Base(pid)) {
      assert Ranked(t, pid, h.Order(pid), h.Base(pid));
    }
  }

  /** A clock tick moves every process's ranks up by one. */
  function Ticked(h: History): (h': History)
  {
    h.(base := map pid | pid in h.order :: h.Base(pid) + 1)
  }

  lemma TickKeeps(t: seq<Entry>, t': seq<Entry>, h: History)
    requires TableOk(t, h) && After(t, t', Tick)
    ensures TableOk(t', Ticked(h))
  {
    var h' := Ticked(h);
    forall pid | pid != NONE ensures Ranked(t', pid, h'.Order(pid), h'.Base(pid)) {
      assert Ranked(t, pid, h.Order(pid), h.Base(pid));
    }
  }

  // ---- The lowest rank ----

  predicate HasFrames(t: seq<Entry>, pid: int) { exists f :: 0 <= f < |t| && t[f].pid == pid }

  /** The operation raises the lowest rank of a process: a tick, or an addition over its oldest frame. */
  predicate Raises(t: seq<Entry>, op: Op, pid: int)
    requires CanDo(t, op)
  {
    op.Tick? || (op.Add? && t[op.f].pid == pid && IsLowest(t, op.f))
  }

  /** How many operations have raised it since the process got the first of its present frames. */
  ghost function Age(ts: seq<seq<Entry>>, ops: seq<Op>, i: nat, pid: int): (n: nat)
    requires |ts| == |ops| + 1 && i <= |ops| && forall j :: 0 <= j < |ops| ==> CanDo(ts[j], ops[j])
  {
    if i == 0 || !HasFrames(ts[i - 1], pid) then 0
    else Age(ts, ops, i - 1, pid) + if Raises(ts[i - 1], ops[i - 1], pid) then 1 else 0
  }

  /** Frames are added only where that keeps ranks consecutive. */
  ghost predicate Tidy(ts: seq<seq<Entry>>, ops: seq<Op>)
    requires IsRun(ts, ops)
  {
    forall i :: 0 <= i < |ops| && ops[i].Add? ==> AtAnEnd(ts[i], ops[i].pid, ops[i].f)
  }

  ghost predicate Aged(ts: seq<seq<Entry>>, ops: seq<Op>, i: nat, h: History)
    requires IsRun(ts, ops) && i < |ts|
  {
    forall pid :: pid != NONE && h.Order(pid) != [] ==> h.Base(pid) == Age(ts, ops, i, pid)
  }

  lemma HasFramesIn(t: seq<Entry>, h: History, pid: int)
    requires TableOk(t, h) && pid != NONE
    ensures HasFrames(t, pid) <==> h.Order(pid) != []
  {
    RankedAt(t, h, pid);
    hide TableOk;
    var q := h.Order(pid);
    if q != [] { assert q[0] in q; }
    if f :| 0 <= f < |t| && t[f].pid == pid { assert f in q; }
  }

  /** The history after one operation, and how it moves the lowest rank of a process that keeps frames. */
  lemma HistoryAfter(t: seq<Entry>, t': seq<Entry>, h: History, op: Op) returns (h': History)
    requires TableOk(t, h) && CanDo(t, op) && After(t, t', op) && (op.Add? ==> AtAnEnd(t, op.pid, op.f))
    ensures TableOk(t', h')
    ensures forall pid :: pid != NONE && h'.Order(pid) != [] ==>
      h'.Base(pid) == if h.Order(pid) == [] then 0 else h.Base(pid) + if Raises(t, op, pid) then 1 else 0
  {
    hide TableOk, EntryAfter, IsLowest, IsHighest;
    match op
    case Add(pid, _, f, _) =>
      OverKeeps(t, t', h, op);
      h' := AddedOver(t, h, pid, f);
      if t[f].pid != NONE { var i := PlaceOf(t, h, f); OnceIn(t, h, t[f].pid); }
    case Reset(f) =>
      if t[f].pid == NONE {
        SameTable(t, t', h, f);
        h' := h;
      } else {
        var i := PlaceOf(t, h, f);
        DropKeeps(t, t', h, f, i);
        h' := Dropped(h, t[f].pid, i);
      }
    case Tick =>
      TickKeeps(t, t', h);
      h' := Ticked(h);
  }

  lemma OnceIn(t: seq<Entry>, h: History, pid: int)
    requires TableOk(t, h) && pid != NONE
    ensures Distinct(h.Order(pid))
  {}

  lemma NoneYet(t: seq<Entry>, h: History)
    requires h == History(map[], map[]) && forall f :: 0 <= f < |t| ==> t[f] == FREE
    ensures TableOk(t, h)
  {}

  /** In every such run ranks are consecutive, and the lowest is the process's age. */
  lemma {:induction false} Consecutive(ts: seq<seq<Entry>>, ops: seq<Op>, i: nat) returns (h: History)
    requires IsRun(ts, ops) && Tidy(ts, ops) && i < |ts|
    ensures TableOk(ts[i], h) && Aged(ts, ops, i, h)
  {
    hide TableOk, HasFrames, Raises, After;
    if i == 0 {
      h := History(map[], map[]);
      NoneYet(ts[0], h);
    } else {
      var h0 := Consecutive(ts, ops, i - 1);
      h := HistoryAfter(ts[i - 1], ts[i], h0, ops[i - 1]);
      forall pid | pid != NONE && h.Order(pid) != [] ensures h.Base(pid) == Age(ts, ops, i, pid) {
        HasFramesIn(ts[i - 1], h0, pid);
      }
    }
  }

  // ---- Which frame replacement finds ----

  /** Replacement finds a frame of the process. */
  predicate Found(t: seq<Entry>, pid: int) { exists f :: 0 <= f < |t| && t[f].pid == pid && t[f].fifo == 0 }

  predicate HasRank(t: seq<Entry>, pid: int, r: int) { exists f :: 0 <= f < |t| && t[f].pid == pid && t[f].fifo == r }

  /** A frame of process pid with the lowest rank it has. */
  predicate IsOldest(t: seq<Entry>, pid: int, f: nat)
    requires f < |t|
  {
    t[f].pid == pid && IsLowest(t, f)
  }

  /**
   The operation leaves the process without a frame of rank 0: a tick, an addition over its oldest
   frame, or a reset of its oldest frame when none has the rank after it.
   */
  predicate Hides(t: seq<Entry>, op: Op, pid: int)
    requires CanDo(t, op)
  {
    match op
    case Add(_, _, f, _) => IsOldest(t, pid, f)
    case Reset(f) => IsOldest(t, pid, f) && !HasRank(t, pid, t[f].fifo + 1)
    case Tick => true
  }

  /** Some operation has done so since the process got the first of its present frames. */
  ghost predicate Hidden(ts: seq<seq<Entry>>, ops: seq<Op>, i: nat, pid: int)
    requires |ts| == |ops| + 1 && i <= |ops| && forall j :: 0 <= j < |ops| ==> CanDo(ts[j], ops[j])
  {
    i > 0 && HasFrames(ts[i - 1], pid) && (Hidden(ts, ops, i - 1, pid) || Hides(ts[i - 1], ops[i - 1], pid))
  }

  /** Ranks of a process are distinct and not negative. */
  ghost predicate Sound(t: seq<Entry>, pid: int)
  {
    && (forall f :: 0 <= f < |t| && t[f].pid == pid ==> t[f].fifo >= 0)
    && (forall f, g :: 0 <= f < |t| && 0 <= g < |t| && f != g && t[f].pid == t[g].pid == pid ==> t[f].fifo != t[g].fifo)
  }

  lemma RunsSound(ts: seq<seq<Entry>>, ops: seq<Op>, i: nat, pid: int)
    requires IsRun(ts, ops) && i < |ts| && pid != NONE
    ensures Sound(ts[i], pid)
  {
    RunsFifo(ts, ops, i);
    hide IsRun;
    var t := ts[i];
    forall f | 0 <= f < |t| && t[f].pid == pid ensures t[f].fifo >= 0 { assert InUse(t, ops, i, f); }
    forall f, g | 0 <= f < |t| && 0 <= g < |t| && f != g && t[f].pid == t[g].pid == pid
      ensures t[f].fifo != t[g].fifo
    {
      assert InUse(t, ops, i, f) && InUse(t, ops, i, g);
      assert InOrder(t, ops, i, f, g) && InOrder(t, ops, i, g, f);
    }
  }

  /** An operation after which the process has frames. */
  lemma FoundAfter(t: seq<Entry>, t': seq<Entry>, op: Op, pid: int)
    requires CanDo(t, op) && After(t, t', op) && pid != NONE && Sound(t, pid) && HasFrames(t', pid)
    ensures Found(t', pid) <==> !HasFrames(t, pid) || (Found(t, pid) && !Hides(t, op, pid))
  {
    match op
    case Add(_, _, _, _) => FoundAdd(t, t', op, pid);
    case Reset(f) => FoundReset(t, t', f, pid);
    case Tick => forall f | 0 <= f < |t'| && t'[f].pid == pid ensures t'[f].fifo > 0 { assert t[f].fifo >= 0; }
  }

  lemma FoundAdd(t: seq<Entry>, t': seq<Entry>, op: Op, pid: int)
    requires op.Add? && CanDo(t, op) && After(t, t', op) && pid != NONE && Sound(t, pid) && HasFrames(t', pid)
    ensures Found(t', pid) <==> !HasFrames(t, pid) || (Found(t, pid) && !Hides(t, op, pid))
  {
    MaxRankFacts(t, op.pid, |t|);
    hide MaxRank;
    var f := op.f;
    assert forall g :: 0 <= g < |t| ==> t'[g] == EntryAfter(t, op, g);
    if !HasFrames(t, pid) {
      assert t'[f].pid == pid == op.pid && t'[f].fifo == 0;
    } else if Found(t, pid) {
      var z :| 0 <= z < |t| && t[z].pid == pid && t[z].fifo == 0;
      if z != f { assert t'[z].fifo == 0; }
    }
  }

  lemma FoundReset(t: seq<Entry>, t': seq<Entry>, f: nat, pid: int)
    requires CanDo(t, Reset(f)) && After(t, t', Reset(f)) && pid != NONE && Sound(t, pid) && HasFrames(t', pid)
    ensures Found(t', pid) <==> !HasFrames(t, pid) || (Found(t, pid) && !Hides(t, Reset(f), pid))
  {
    assert forall g :: 0 <= g < |t| ==> t'[g] == EntryAfter(t, Reset(f), g);
    var k :| 0 <= k < |t'| && t'[k].pid == pid;
    assert t[k].pid == pid;
    if Found(t, pid) {
      var z :| 0 <= z < |t| && t[z].pid == pid && t[z].fifo == 0;
      if z != f { assert t'[z].fifo == 0; }
      else if HasRank(t, pid, 1) {
        var y :| 0 <= y < |t| && t[y].pid == pid && t[y].fifo == 1;
        assert t'[y].fifo == 0;
      }
    }
  }

  /**
   In every run, replacement finds a frame of a process exactly if the process has frames and nothing
   has hidden rank 0 since it got the first of them.
   */
  lemma {:induction false} ReplacementExact(ts: seq<seq<Entry>>, ops: seq<Op>, i: nat, pid: int)
    requires IsRun(ts, ops) && i < |ts| && pid != NONE
    ensures Found(ts[i], pid) <==> HasFrames(ts[i], pid) && !Hidden(ts, ops, i, pid)
    decreases i
  {
    if i == 0 {
      assert !HasFrames(ts[0], pid);
    } else {
      hide After, Sound, Hides;
      ReplacementExact(ts, ops, i - 1, pid);
      RunsSound(ts, ops, i - 1, pid);
      if HasFrames(ts[i], pid) { FoundAfter(ts[i - 1], ts[i], ops[i - 1], pid); }
    }
  }

  /** One frame and one tick: the process has a frame and replacement finds none. */
  lemma TickHides() returns (ts: seq<seq<Entry>>, ops: seq<Op>)
    ensures IsRun(ts, ops) && Tidy(ts, ops) && |ops| == 2 && HasFrames(ts[2], 1)
    ensures !Found(ts[2], 1)
  {
    ts := [[FREE], [Entry(1, 0, 0, 0)], [Entry(1, 0, 0, 1)]];
    ops := [Add(1, 0, 0, 0), Tick];
    assert MaxRank(ts[0], 1, 1) == -1;
    assert ts[2][0].pid == 1;
  }

  function Has(pid: int, fifo: int): (e: Entry) { Entry(pid, 0, 0, fifo) }

  /**
   No tick and no addition over the oldest frame: another process is given the middle one of three
   frames, the oldest is reset, and replacement does not find the one that is left.
   */
  lemma GapHides() returns (ts: seq<seq<Entry>>, ops: seq<Op>)
    ensures IsRun(ts, ops) && |ops| == 5 && HasFrames(ts[5], 1) && Age(ts, ops, 5, 1) == 0 && !Found(ts[5], 1)
  {
    var ts0 := [FREE, FREE, FREE];
    var ts1 := [Has(1, 0), FREE, FREE];
    var ts2 := [Has(1, 0), Has(1, 1), FREE];
    var ts3 := [Has(1, 0), Has(1, 1), Has(1, 2)];
    var ts4 := [Has(1, 0), Has(2, 0), Has(1, 2)];
    var ts5 := [FREE, Has(2, 0), Has(1, 1)];
    ts := [ts0, ts1, ts2, ts3, ts4, ts5];
    ops := [Add(1, 0, 0, 0), Add(1, 0, 1, 0), Add(1, 0, 2, 0), Add(2, 0, 1, 0), Reset(0)];
    MaxRankThree(ts0, 1);
    MaxRankThree(ts1, 1);
    MaxRankThree(ts2, 1);
    MaxRankThree(ts3, 2);
    hide MaxRank;
    assert After(ts0, ts1, ops[0]) && After(ts1, ts2, ops[1]) && After(ts2, ts3, ops[2]);
    assert After(ts3, ts4, ops[3]) && After(ts4, ts5, ops[4]);
    assert ts5[2].pid == 1;
    hide After, HasFrames;
    assert ts3[0].fifo < ts3[1].fifo && !IsLowest(ts3, 1);
    assert Age(ts, ops, 1, 1) == 0 && Age(ts, ops, 2, 1) == 0 && Age(ts, ops, 3, 1) == 0 && Age(ts, ops, 4, 1) == 0;
  }

  lemma MaxRankThree(t: seq<Entry>, pid: int)
    requires |t| == 3
    ensures var r0 := if t[0].pid == pid && t[0].fifo > -1 then t[0].fifo else -1;
      var r1 := if t[1].pid == pid && t[1].fifo > r0 then t[1].fifo else r0;
      MaxRank(t, pid, 3) == if t[2].pid == pid && t[2].fifo > r1 then t[2].fifo else r1
  {
    assert MaxRank(t, pid, 0) == -1;
    assert MaxRank(t, pid, 2) == var r := MaxRank(t, pid, 1); if t[1].pid == pid && t[1].fifo > r then t[1].fifo else r;
  }

  predicate Matches(e: Entry, pid: int, vaddr: nat) { e.pid == pid && e.vaddr == vaddr }

  /** The answer to a lookup: the highest frame with that process and address, and its status. */
  ghost predicate Answers(t: seq<Entry>, pid: int, vaddr: nat, found: bool, paddr: nat, status: nat)
  {
    && (found <==> exists f :: 0 <= f < |t| && Matches(t[f], pid, vaddr))
    && (found ==>
          && paddr % PAGE_SIZE == 0 && paddr / PAGE_SIZE < |t|
          && Matches(t[paddr / PAGE_SIZE], pid, vaddr) && t[paddr / PAGE_SIZE].status == status
          && forall g :: paddr / PAGE_SIZE < g < |t| ==> !Matches(t[g], pid, vaddr))
  }

  /** Right after an addition a lookup finds the frame, with the status given, exactly unless a higher one matches. */
  lemma AddedFound(t: seq<Entry>, t': seq<Entry>, op: Op, found: bool, paddr: nat, status: nat)
    requires op.Add? && CanDo(t, op) && After(t, t', op) && Answers(t', op.pid, op.vaddr, found, paddr, status)
    ensures found
    ensures paddr == op.f * PAGE_SIZE <==> forall g :: op.f < g < |t| ==> !Matches(t[g], op.pid, op.vaddr)
    ensures paddr == op.f * PAGE_SIZE ==> status == op.status
  {
    hide MaxRank;
    assert Matches(t'[op.f], op.pid, op.vaddr);
    assert forall g :: op.f < g < |t| ==> t'[g] == t[g];
    assert paddr == paddr / PAGE_SIZE * PAGE_SIZE;
  }

  class Table {
    const entries: array<Entry>

    /** page_table_init */
    constructor (length: nat)
      ensures entries.Length == length && forall f :: 0 <= f < length ==> entries[f] == FREE
    {
      entries := new Entry[length](i => FREE);
    }

    /** page_table_add_entry */
    method AddEntry(pid: int, vaddr: nat, paddr: nat, status: nat)
      requires pid != NONE && paddr / PAGE_SIZE < entries.Length
      modifies entries
      ensures After(old(entries[..]), entries[..], Add(pid, vaddr, paddr / PAGE_SIZE, status))
    {
      var f := paddr / PAGE_SIZE;
      var last := LastRank(pid);
      entries[f] := Entry(pid, vaddr, status, last + 1);
    }

    /** The highest rank of a process, -1 if it has no frames. */
    method LastRank(pid: int) returns (last: int)
      ensures last == MaxRank(entries[..], pid, entries.Length)
    {
      last := -1;
      for i := 0 to entries.Length
        invariant last == MaxRank(entries[..], pid, i)
      {
        if pid == entries[i].pid && entries[i].fifo > last { last := entries[i].fifo; }
      }
    }

    /** page_table_reset_entry */
    method ResetEntry(index: nat)
      requires index < entries.Length
      modifies entries
      ensures After(old(entries[..]), entries[..], Reset(index))
    {
      ghost var t := entries[..];
      var pid, fifo := entries[index].pid, entries[index].fifo;
      entries[index] := FREE;
      for k := 0 to entries.Length
        invariant forall g :: 0 <= g < entries.Length ==>
          entries[g] == if g < k then EntryAfter(t, Reset(index), g) else if g == index then FREE else t[g]
        modifies entries
      {
        if pid == entries[k].pid && entries[k].fifo > fifo { entries[k] := entries[k].(fifo := entries[k].fifo - 1); }
      }
    }

    /** lru_update_cnt */
    method TickAll()
      modifies entries
      ensures After(old(entries[..]), entries[..], Tick)
    {
      ghost var t := entries[..];
      for i := 0 to entries.Length
        invariant forall f :: 0 <= f < entries.Length ==>
          entries[f] == if f < i && t[f].pid != NONE then t[f].(fifo := t[f].fifo + 1) else t[f]
        modifies entries
      {
        if entries[i].pid != NONE { entries[i] := entries[i].(fifo := entries[i].fifo + 1); }
      }
    }

    /** page_table_replacement */
    method Replacement(pid: int) returns (index: int)
      ensures index == -1 <==> !Found(entries[..], pid)
      ensures index != -1 ==>
        0 <= index < entries.Length && entries[index].pid == pid && entries[index].fifo == 0
    {
      for i := 0 to entries.Length
        invariant forall f :: 0 <= f < i && entries[f].pid == pid ==> entries[f].fifo != 0
      {
        if entries[i].fifo == 0 && entries[i].pid == pid { return i; }
      }
      return -1;
    }

    /** page_table_get_paddr_entry: the last entry that matches. */
    method Lookup(pid: int, vaddr: nat) returns (found: bool, paddr: nat, status: nat)
      ensures Answers(entries[..], pid, vaddr, found, paddr, status)
    {
      var last := entries.Length;
      for i := 0 to entries.Length
        invariant 0 <= last < i || last == entries.Length
        invariant last == entries.Length ==>
          forall f :: 0 <= f < i ==> entries[f].pid != pid || entries[f].vaddr != vaddr
        invariant last < i ==> entries[last].pid == pid && entries[last].vaddr == vaddr
                               && forall f :: last < f < i ==> entries[f].pid != pid || entries[f].vaddr != vaddr
      {
        if entries[i].pid == pid && entries[i].vaddr == vaddr { last := i; }
      }
      if last == entries.Length { return false, 0, 0; }
      return true, last * PAGE_SIZE, entries[last].status;
    }
  }
}
