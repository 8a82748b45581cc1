/**
 The doubly linked thread list.  Two bookend nodes are always on the list, so
 that insertion and removal have no special cases; the list refines a sequence
 of threads.
 */
module ThreadList {

  class ListNode {
    var prev: ListNode?
    var next: ListNode?
    var self: Thread?

    constructor ()
      ensures prev == null && next == null && self == null
    {
      prev, next, self := null, null, null;
    }
  }

  class Thread {
    const node: ListNode

    constructor ()
      ensures Detached() && fresh(node)
    {
      node := new ListNode();
      new;
      node.self := this;
    }

    /** Not on any list: what the list code asserts before linking a thread in. */
    ghost predicate Detached()
      reads node
    {
      node.prev == null && node.next == null && node.self == this
    }
  }

  class List {
    const head: ListNode
    const tail: ListNode
    var count: nat

    /** The sequence the list stands for, and its nodes with the bookends. */
    ghost var threads: seq<Thread>
    ghost var spine: seq<ListNode>

    /** The links, in both directions, read the sequence. */
    ghost predicate Linked()
      reads this, spine
    {
      && |spine| == |threads| + 2 && spine[0] == head && spine[|spine| - 1] == tail
      && (forall i :: 0 <= i < |threads| ==> spine[i + 1] == threads[i].node)
      && (forall i, j :: 0 <= i < j < |spine| ==> spine[i] != spine[j])
      && (forall i :: 0 <= i < |spine| - 1 ==> spine[i].next == spine[i + 1])
      && (forall i :: 0 < i < |spine| ==> spine[i].prev == spine[i - 1])
      && (forall i :: 0 <= i < |threads| ==> spine[i + 1].self == threads[i])
      && head.prev == null && tail.next == null
      && head.self == null && tail.self == null
    }

    ghost predicate Valid()
      reads this, spine
    {
      Linked() && count == |threads|
    }

    constructor ()
      ensures Valid() && threads == [] && fresh(spine)
    {
      head := new ListNode();
      tail := new ListNode();
      count := 0;
      threads := [];
      new;
      head.next := tail;
      tail.prev := head;
      spine := [head, tail];
    }

    method IsEmpty() returns (r: bool)
      requires Valid()
      ensures r <==> threads == []
    {
      r := count == 0;
    }

    //////////////////////////////////////////////////////////////////
    // internal: these do not update the count

    /** Link t in after position k of the spine. */
    method InsertAfterNode(onlist: ListNode, t: Thread, ghost k: nat)
      requires Linked() && k < |spine| - 1 && spine[k] == onlist
      requires t.Detached() && t.node !in spine
      modifies this`threads, this`spine, onlist, onlist.next, t.node
      ensures Linked()
      ensures threads == old(threads[..k] + [t] + threads[k..])
      ensures spine == old(spine[..k + 1] + [t.node] + spine[k + 1..])
    {
      assert spine[k].next == spine[k + 1];
      ghost var was, others := spine, threads;
      var addee := t.node;
      addee.prev := onlist;
      addee.next := onlist.next;
      addee.prev.next := addee;
      addee.next.prev := addee;
      spine := spine[..k + 1] + [addee] + spine[k + 1..];
      threads := threads[..k] + [t] + threads[k..];
      ghost var m := k + 1;
      forall i | 0 <= i < |threads| ensures spine[i + 1] == threads[i].node && spine[i + 1].self == threads[i] {
        if i < k { assert spine[i + 1] == was[i + 1] && threads[i] == others[i]; }
        else if i > k { assert spine[i + 1] == was[i] && threads[i] == others[i - 1]; }
      }
      forall i | 0 <= i < |spine| - 1 ensures spine[i].next == spine[i + 1] {
        if i < m - 1 { assert spine[i] == was[i] && spine[i + 1] == was[i + 1]; }
        else if i > m { assert spine[i] == was[i - 1] && spine[i + 1] == was[i]; }
      }
      forall i | 0 < i < |spine| ensures spine[i].prev == spine[i - 1] {
        if i < m { assert spine[i] == was[i] && spine[i - 1] == was[i - 1]; }
        else if i > m + 1 { assert spine[i] == was[i - 1] && spine[i - 1] == was[i - 2]; }
      }
    }

    /** Link t in before position k of the spine. */
    method InsertBeforeNode(t: Thread, onlist: ListNode, ghost k: nat)
      requires Linked() && 0 < k < |spine| && spine[k] == onlist
      requires t.Detached() && t.node !in spine
      modifies this`threads, this`spine, onlist, onlist.prev, t.node
      ensures Linked()
      ensures threads == old(threads[..k - 1] + [t] + threads[k - 1..])
      ensures spine == old(spine[..k] + [t.node] + spine[k..])
    {
      assert spine[k].prev == spine[k - 1];
      ghost var was, others := spine, threads;
      var addee := t.node;
      addee.prev := onlist.prev;
      addee.next := onlist;
      addee.prev.next := addee;
      addee.next.prev := addee;
      spine := spine[..k] + [addee] + spine[k..];
      threads := threads[..k - 1] + [t] + threads[k - 1..];
      forall i | 0 <= i < |threads| ensures spine[i + 1] == threads[i].node && spine[i + 1].self == threads[i] {
        if i < k - 1 { assert spine[i + 1] == was[i + 1] && threads[i] == others[i]; }
        else if i > k - 1 { assert spine[i + 1] == was[i] && threads[i] == others[i - 1]; }
      }
      forall i | 0 <= i < |spine| - 1 ensures spine[i].next == spine[i + 1] {
        if i < k - 1 { assert spine[i] == was[i] && spine[i + 1] == was[i + 1]; }
        else if i > k { assert spine[i] == was[i - 1] && spine[i + 1] == was[i]; }
      }
      forall i | 0 < i < |spine| ensures spine[i].prev == spine[i - 1] {
        if i < k { assert spine[i] == was[i] && spine[i - 1] == was[i - 1]; }
        else if i > k + 1 { assert spine[i] == was[i - 1] && spine[i - 1] == was[i - 2]; }
      }
    }

    /** Unlink the thread at position k of the sequence. */
    method RemoveNode(tln: ListNode, ghost k: nat)
      requires Linked() && k < |threads| && spine[k + 1] == tln
      modifies this`threads, this`spine, tln, tln.prev, tln.next
      ensures Linked()
      ensures threads == old(threads[..k] + threads[k + 1..])
      ensures spine == old(spine[..k + 1] + spine[k + 2..])
      ensures old(threads[k]).Detached() && tln !in spine
    {
      assert tln.prev == spine[k] && tln.next == spine[k + 2] && spine[k + 1].self == threads[k];
      tln.prev.next := tln.next;
      tln.next.prev := tln.prev;
      tln.prev := null;
      tln.next := null;
      spine := spine[..k + 1] + spine[k + 2..];
      threads := threads[..k] + threads[k + 1..];
    }

    //////////////////////////////////////////////////////////////////
    // public

    method AddHead(t: Thread)
      requires Valid() && t.Detached() && t.node !in spine
      modifies this, head, head.next, t.node
      ensures Valid() && threads == [t] + old(threads)
      ensures spine == old([spine[0], t.node] + spine[1..])
    {
      InsertAfterNode(head, t, 0);
      count := count + 1;
    }

    method AddTail(t: Thread)
      requires Valid() && t.Detached() && t.node !in spine
      modifies this, tail, tail.prev, t.node
      ensures Valid() && threads == old(threads) + [t]
      ensures spine == old(spine[..|spine| - 1] + [t.node, tail])
    {
      InsertBeforeNode(t, tail, |spine| - 1);
      count := count + 1;
    }

    method RemoveHead() returns (t: Thread?)
      requires Valid()
      modifies this, spine
      ensures Valid()
      ensures t == null <==> old(threads) == []
      ensures t == null ==> threads == [] && unchanged(this) && unchanged(old(spine))
      ensures t != null ==> t == old(threads)[0] && threads == old(threads)[1..] && t.Detached() && t.node !in spine
      ensures t != null ==> spine == old(spine[..1] + spine[2..])
    {
      assert spine[0].next == spine[1];
      assert |threads| > 0 ==> spine[1].next == spine[2];
      var tln := head.next;
      if tln.next == null {
        return null;
      }
      assert tln.prev == spine[0] && tln.next == spine[2] && tln.self == threads[0];
      t := tln.self;
      RemoveNode(tln, 0);
      count := count - 1;
    }

    method RemoveTail() returns (t: Thread?)
      requires Valid()
      modifies this, spine
      ensures Valid()
      ensures t == null <==> old(threads) == []
      ensures t == null ==> threads == [] && unchanged(this) && unchanged(old(spine))
      ensures t != null ==> t == old(threads)[|old(threads)| - 1] && threads == old(threads)[..|old(threads)| - 1]
      ensures t != null ==> t.Detached() && t.node !in spine
      ensures t != null ==> spine == old(spine[..|spine| - 2] + spine[|spine| - 1..])
    {
      ghost var n := |threads|;
      assert spine[n + 1].prev == spine[n];
      assert n > 0 ==> spine[n].prev == spine[n - 1];
      var tln := tail.prev;
      if tln.prev == null {
        return null;
      }
      assert tln.prev == spine[n - 1] && tln.next == spine[n + 1] && tln.self == threads[n - 1];
      t := tln.self;
      RemoveNode(tln, n - 1);
      count := count - 1;
    }

    method InsertAfter(onlist: Thread, addee: Thread, ghost k: nat)
      requires Valid() && k < |threads| && threads[k] == onlist
      requires addee.Detached() && addee.node !in spine
      modifies this, onlist.node, onlist.node.next, addee.node
      ensures Valid() && threads == old(threads[..k + 1] + [addee] + threads[k + 1..])
    {
      InsertAfterNode(onlist.node, addee, k + 1);
      count := count + 1;
    }

    method InsertBefore(addee: Thread, onlist: Thread, ghost k: nat)
      requires Valid() && k < |threads| && threads[k] == onlist
      requires addee.Detached() && addee.node !in spine
      modifies this, onlist.node, onlist.node.prev, addee.node
      ensures Valid() && threads == old(threads[..k] + [addee] + threads[k..])
    {
      InsertBeforeNode(addee, onlist.node, k + 1);
      count := count + 1;
    }

    method Remove(t: Thread, ghost k: nat)
      requires Valid() && k < |threads| && threads[k] == t
      modifies this, t.node, t.node.prev, t.node.next
      ensures Valid() && threads == old(threads[..k] + threads[k + 1..])
      ensures t.Detached() && t.node !in spine
    {
      RemoveNode(t.node, k);
      count := count - 1;
    }

    /** Following the next links visits the threads in order. */
    method Forward() returns (s: seq<Thread>)
      requires Valid()
      ensures s == threads
    {
      s := [];
      assert spine[0].next == spine[1];
      var t := head.next.self;
      ThreadAt(0);
      while t != null
        invariant |s| <= |threads| && s == threads[..|s|]
        invariant t == spine[|s| + 1].self
        invariant t == null <==> |s| == |threads|
        decreases |threads| - |s|
      {
        ThreadAt(|s|);
        s := s + [t];
        assert t.node == spine[|s|] && spine[|s|].next == spine[|s| + 1];
        t := t.node.next.self;
        ThreadAt(|s|);
      }
    }

    /** Only the bookends have no thread. */
    lemma ThreadAt(k: nat)
      requires Linked() && k <= |threads|
      ensures k < |threads| ==> spine[k + 1].self == threads[k]
      ensures spine[k + 1].self == null <==> k == |threads|
      ensures spine[k].self == null <==> k == 0
      ensures k > 0 ==> spine[k].self == threads[k - 1]
    {
      assert k > 0 ==> spine[(k - 1) + 1].self == threads[k - 1];
    }

    /** Following the prev links visits them in reverse. */
    method Backward() returns (s: seq<Thread>)
      requires Valid()
      ensures |s| == |threads| && forall i :: 0 <= i < |s| ==> s[i] == threads[|s| - 1 - i]
    {
      s := [];
      ghost var n := |threads|;
      assert spine[n + 1].prev == spine[n];
      var t := tail.prev.self;
      ThreadAt(n);
      while t != null
        invariant |s| <= n == |threads|
        invariant forall i :: 0 <= i < |s| ==> s[i] == threads[n - 1 - i]
        invariant t == spine[n - |s|].self
        invariant t == null <==> |s| == n
        decreases n - |s|
      {
        ThreadAt(n - |s|);
        s := s + [t];
        assert spine[n - |s| + 1].prev == spine[n - |s|];
        t := t.node.prev.self;
        ThreadAt(n - |s|);
      }
    }
  }

  /** Two lists share no node: operations on one leave the other alone. */
  ghost predicate Disjoint(a: List, b: List)
    reads a, b
  {
    a != b && forall i, j :: 0 <= i < |a.spine| && 0 <= j < |b.spine| ==> a.spine[i] != b.spine[j]
  }

  /** Take the first thread off one list, if there is one, and put it at the end of another. */
  method MoveOne(from: List, to: List) returns (moved: bool)
    requires from.Valid() && to.Valid() && Disjoint(from, to)
    modifies from, to, from.spine, to.spine
    ensures from.Valid() && to.Valid() && Disjoint(from, to)
    ensures moved <==> old(from.threads) != []
    ensures moved ==> from.threads == old(from.threads)[1..] && to.threads == old(to.threads) + [old(from.threads)[0]]
    ensures !moved ==> from.threads == old(from.threads) && to.threads == old(to.threads)
    ensures forall i :: 0 <= i < |from.spine| ==> from.spine[i] in old(from.spine)
    ensures forall i :: 0 <= i < |to.spine| ==> to.spine[i] in old(from.spine) || to.spine[i] in old(to.spine)
  {
    var t := from.RemoveHead();
    moved := t != null;
    if moved {
      assert to.tail.prev == to.spine[|to.spine| - 2];
      to.AddTail(t);
    }
  }

  /** Move every thread of one list to the end of another, as waking a whole channel does. */
  method MoveAll(from: List, to: List)
    requires from.Valid() && to.Valid() && Disjoint(from, to)
    modifies from, to, from.spine, to.spine
    ensures from.Valid() && to.Valid() && Disjoint(from, to)
    ensures from.threads == [] && to.threads == old(to.threads) + old(from.threads)
  {
    var moved := MoveOne(from, to);
    while moved
      invariant from.Valid() && to.Valid() && Disjoint(from, to)
      invariant forall i :: 0 <= i < |from.spine| ==> from.spine[i] in old(from.spine)
      invariant forall i :: 0 <= i < |to.spine| ==> to.spine[i] in old(from.spine) || to.spine[i] in old(to.spine)
      invariant to.threads + from.threads == old(to.threads) + old(from.threads)
      invariant !moved ==> from.threads == []
      decreases |from.threads|, moved
    {
      moved := MoveOne(from, to);
    }
  }
}
