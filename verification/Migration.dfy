/**
 The load balancer: threads move from an over-full run queue to the queues of
 other processors.  Run-queue locks are taken one at a time, so other
 processors act in between; their actions are an arbitrary script of events.
 */
module Migration {

  type Tid(==) = nat

  /** What other processors can do to the run queues while we hold no lock that stops them. */
  datatype Event =
    | Wake(t: Tid)              // a thread becomes runnable and joins the queue of its home
    | Run(c: nat)               // another processor takes the thread at the head of its queue
    | Steal(c: nat)             // another processor's balancer takes the thread at the tail of its queue
    | Rehome(t: Tid, c: nat)    // and decides on a new home for it

  /** Where a thread is: on a run queue, on our private list, or running, asleep or on another private list. */
  datatype Place = OnQueue(c: nat) | Victim | Elsewhere

  /** q lists the threads whose place is p, each once. */
  ghost predicate Lists(q: seq<Tid>, place: map<Tid, Place>, p: Place)
  {
    && (forall i, j :: 0 <= i < j < |q| ==> q[i] != q[j])
    && (forall t :: t in q <==> t in place && place[t] == p)
  }

  lemma Member(q: seq<Tid>, place: map<Tid, Place>, p: Place, i: nat)
    requires Lists(q, place, p) && i < |q|
    ensures q[i] in place && place[q[i]] == p
  {}

  /** Moving a thread takes it off the front or the back of one list and puts it on the front or the back of another. */
  lemma Moved(q: seq<Tid>, place: map<Tid, Place>, p: Place, t: Tid, p': Place)
    requires Lists(q, place, p) && t in place
    ensures p != p' && q != [] && q[0] == t ==> Lists(q[1..], place[t := p'], p)
    ensures p != p' && q != [] && q[|q| - 1] == t ==> Lists(q[..|q| - 1], place[t := p'], p)
    ensures p == p' && place[t] != p ==> Lists(q + [t], place[t := p'], p) && Lists([t] + q, place[t := p'], p)
    ensures p != p' && place[t] != p ==> Lists(q, place[t := p'], p)
  {}

  /** The number of threads on the first n queues. */
  function CountUpTo(qs: seq<seq<Tid>>, n: nat): (k: nat)
    requires n <= |qs|
  {
    if n == 0 then 0 else CountUpTo(qs, n - 1) + |qs[n - 1]|
  }

  function TotalCount(qs: seq<seq<Tid>>): (n: nat)
  {
    CountUpTo(qs, |qs|)
  }

  /** All threads on the first n queues. */
  ghost function OnQueues(qs: seq<seq<Tid>>, n: nat): (m: multiset<Tid>)
    requires n <= |qs|
  {
    if n == 0 then multiset{} else OnQueues(qs, n - 1) + multiset(qs[n - 1])
  }

  /** q less the thread t. */
  function Without(q: seq<Tid>, t: Tid): (r: seq<Tid>)
    ensures |r| <= |q|
  {
    if q == [] then []
    else Without(q[..|q| - 1], t) + (if q[|q| - 1] == t then [] else [q[|q| - 1]])
  }

  /** What of q is the thread t. */
  function Only(q: seq<Tid>, t: Tid): (r: seq<Tid>)
  {
    if q == [] then []
    else Only(q[..|q| - 1], t) + (if q[|q| - 1] == t then [t] else [])
  }

  lemma Appended(q: seq<Tid>, x: Tid, t: Tid)
    ensures Without(q + [x], t) == Without(q, t) + if x == t then [] else [x]
    ensures Only(q + [x], t) == Only(q, t) + if x == t then [t] else []
  {}

  lemma {:induction false} Joined(q: seq<Tid>, r: seq<Tid>, t: Tid)
    ensures Without(q + r, t) == Without(q, t) + Without(r, t) && Only(q + r, t) == Only(q, t) + Only(r, t)
    decreases |r|
  {
    if r == [] {
      assert q + r == q;
    } else {
      var r', x := r[..|r| - 1], r[|r| - 1];
      assert r == r' + [x] && q + r == (q + r') + [x];
      hide Without, Only;
      Joined(q, r', t);
      Appended(r', x, t);
      Appended(q + r', x, t);
    }
  }

  /** Every thread of q is in one of the two parts. */
  lemma {:induction false} Parts(q: seq<Tid>, t: Tid)
    ensures multiset(q) == multiset(Without(q, t)) + multiset(Only(q, t))
    ensures forall x :: x in Without(q, t) <==> x in q && x != t
  {
    if q == [] {
    } else {
      Parts(q[..|q| - 1], t);
      assert q == q[..|q| - 1] + [q[|q| - 1]];
    }
  }

  function Tail(q: seq<Tid>, k: nat): (r: seq<Tid>) { if k <= |q| then q[k..] else [] }

  /** What the first n queues other than our own have gained at their ends, queue after queue. */
  function Gains(qs: seq<seq<Tid>>, qs': seq<seq<Tid>>, me: nat, n: nat): (r: seq<Tid>)
    requires n <= |qs| == |qs'|
  {
    if n == 0 then [] else Gains(qs, qs', me, n - 1) + (if n - 1 == me then [] else Tail(qs'[n - 1], |qs[n - 1]|))
  }

  /** Room below `share` on the queues from i on, other than our own. */
  function Spare(qs: seq<seq<Tid>>, me: nat, share: nat, i: nat): (n: nat)
    requires i <= |qs|
    decreases |qs| - i
  {
    if i == |qs| then 0
    else (if i != me && |qs[i]| < share then share - |qs[i]| else 0) + Spare(qs, me, share, i + 1)
  }

  /** s is the least number of threads per processor that makes room for all of them. */
  ghost predicate IsShare(total: nat, cpus: nat, s: nat)
  {
    s * cpus >= total && (s == 0 || (s - 1) * cpus < total)
  }

  /** Rounding up, as the code's macro does. */
  function DivRoundUp(a: nat, b: nat): (r: nat)
    requires b > 0
    ensures IsShare(a, b, r)
  {
    Rounded(a, b);
    (a + b - 1) / b
  }

  lemma Rounded(a: nat, b: nat)
    requires b > 0
    ensures IsShare(a, b, (a + b - 1) / b)
  {
    var q, m := (a + b - 1) / b, (a + b - 1) % b;
    assert a + b - 1 == q * b + m;
    assert (q - 1) * b == q * b - b;
  }

  /** There is only one such number. */
  lemma ShareUnique(total: nat, cpus: nat, s: nat, s': nat)
    requires cpus > 0 && IsShare(total, cpus, s) && IsShare(total, cpus, s')
    ensures s == s'
  {
    if s < s' { Below(s, s' - 1, cpus); } else if s' < s { Below(s', s - 1, cpus); }
  }

  lemma Below(s: nat, s': nat, cpus: nat)
    requires s <= s'
    ensures s * cpus <= s' * cpus
  {}

  /** The count is the number of threads on the queues. */
  lemma {:induction false} CountIs(qs: seq<seq<Tid>>, n: nat)
    requires n <= |qs|
    ensures CountUpTo(qs, n) == |OnQueues(qs, n)|
    decreases n
  {
    if n == 0 {
    } else {
      CountIs(qs, n - 1);
    }
  }

  lemma {:induction false} SparePrefix(qs: seq<seq<Tid>>, me: nat, share: nat, i: nat)
    requires i <= |qs| && me < |qs|
    ensures Spare(qs, me, share, i) >= (|qs| - i) * share - (TotalCount(qs) - CountUpTo(qs, i))
                                       - (if i <= me then share - |qs[me]| else 0)
    decreases |qs| - i
  {
    if i == |qs| {
    } else {
      SparePrefix(qs, me, share, i + 1);
      assert (|qs| - i) * share == (|qs| - (i + 1)) * share + share;
    }
  }

  /** Pigeonhole: the share is the mean rounded up, so the others have room for all we hold above it. */
  lemma Pigeonhole(qs: seq<seq<Tid>>, me: nat, share: nat)
    requires me < |qs| && IsShare(TotalCount(qs), |qs|, share)
    ensures Spare(qs, me, share, 0) >= |qs[me]| - share
  {
    SparePrefix(qs, me, share, 0);
    assert |qs| * share == share * |qs|;
  }

  /** The run queues as the balancer on processor `me`, interrupting thread `cur`, sees them. */
  datatype State = State(
    me: nat,
    cur: Tid,
    queues: seq<seq<Tid>>,     // the run queues, by processor
    home: map<Tid, nat>,       // the processor each thread belongs to
    victims: seq<Tid>,         // the balancer's private list
    place: map<Tid, Place>,    // where each thread is
    taken: set<Tid>,           // threads that other processors have taken off queues during the pass
    woken: set<Tid>            // and those they have put on
  ) {
    /** Each list holds exactly the threads whose place it is, and a queued thread's home is the queue's processor. */
    ghost predicate Valid(world: set<Tid>)
    {
      && me < |queues| && place.Keys == home.Keys == world
      && (forall c :: 0 <= c < |queues| ==> Lists(queues[c], place, OnQueue(c)))
      && Lists(victims, place, Victim)
      && (forall t :: t in world ==> home[t] < |queues|)
      && (forall t :: t in world && place[t].OnQueue? ==> home[t] == place[t].c)
      && (forall t :: t in world && place[t].Victim? ==> home[t] == me)
      && cur in world && home[cur] == me
    }

    /** How many of the victims are still to be handed out; the current thread, once seen, waits at the end. */
    ghost predicate Pending(toSend: nat)
    {
      && toSend <= |victims| <= toSend + 1
      && (|victims| == toSend + 1 ==> victims[toSend] == cur)
    }

    /** The machine itself does not change. */
    ghost predicate SameMachine(s: State)
    {
      me == s.me && cur == s.cur && me < |queues| == |s.queues|
    }

    /** What happens between s and now, whoever does it. */
    ghost predicate Follows(s: State)
    {
      SameMachine(s) && Accounted(s)
    }

    /** Since s, a thread has left the queues and our list only if others took it, and joined only if they woke it. */
    ghost predicate Accounted(s: State)
    {
      && s.taken <= taken && s.woken <= woken && place.Keys == s.place.Keys
      && (forall t :: t in place && t !in taken && s.place[t] != Elsewhere ==> place[t] != Elsewhere)
      && (forall t :: t in place && t !in woken && s.place[t] == Elsewhere ==> place[t] == Elsewhere)
    }

    /** The balancer itself takes and wakes nobody, and gives no thread but those in q another processor. */
    ghost predicate OursOnly(s: State, q: seq<Tid>)
    {
      && taken == s.taken && woken == s.woken && home.Keys == s.home.Keys
      && (forall t :: t in home && t !in q ==> home[t] == s.home[t])
    }

    /** A thread joins the tail of a queue. */
    function ToQueue(t: Tid, c: nat): (s: State)
      requires c < |queues|
    {
      this.(queues := queues[c := queues[c] + [t]], place := place[t := OnQueue(c)])
    }

    /** The head of a queue starts running. */
    function TakeHead(c: nat): (s: State)
      requires c < |queues| && queues[c] != []
    {
      this.(queues := queues[c := queues[c][1..]], place := place[queues[c][0] := Elsewhere],
            taken := taken + {queues[c][0]})
    }

    /** The tail of a queue goes to a private list: another balancer's, or ours if the queue is ours. */
    function TakeTail(c: nat, p: Place): (s: State)
      requires c < |queues| && queues[c] != []
    {
      var k := |queues[c]| - 1;
      var t := queues[c][k];
      this.(queues := queues[c := queues[c][..k]], place := place[t := p],
            victims := if p == Victim then [t] + victims else victims,
            taken := if p == Elsewhere then taken + {t} else taken)
    }

    /** The first victim gets a new home. */
    function Give(c: nat): (s: State)
      requires c < |queues| && victims != []
    {
      var t := victims[0];
      this.(victims := victims[1..], home := home[t := c]).ToQueue(t, c)
    }

    /** The first victim goes to the end of the list. */
    function Shuffle(): (s: State)
      requires victims != []
    {
      this.(victims := victims[1..] + [victims[0]])
    }

    /** Threads go on and off the lists one at a time; each such move keeps the lists right. */
    lemma Moves(t: Tid, p: Place, world: set<Tid>)
      requires Valid(world) && t in world && p != place[t]
      ensures forall c :: 0 <= c < |queues| && OnQueue(c) != place[t] && OnQueue(c) != p ==>
                Lists(queues[c], place[t := p], OnQueue(c))
      ensures place[t] != Victim && p != Victim ==> Lists(victims, place[t := p], Victim)
    {}

    /** A thread becomes runnable. */
    function WakeUp(t: Tid, c: nat): (s: State)
      requires c < |queues|
    {
      this.(woken := woken + {t}).ToQueue(t, c)
    }

    lemma WakeKeeps(t: Tid, world: set<Tid>)
      requires Valid(world) && t in world && place[t] == Elsewhere
      ensures WakeUp(t, home[t]).Valid(world) && WakeUp(t, home[t]).Accounted(this)
    {
      hide Lists;
      var c := home[t];
      Moves(t, OnQueue(c), world);
      Moved(queues[c], place, OnQueue(c), t, OnQueue(c));
    }

    lemma TakeHeadKeeps(c: nat, world: set<Tid>)
      requires Valid(world) && c < |queues| && queues[c] != []
      ensures TakeHead(c).Valid(world) && TakeHead(c).Accounted(this)
    {
      hide Lists;
      var t := queues[c][0];
      Member(queues[c], place, OnQueue(c), 0);
      Moves(t, Elsewhere, world);
      Moved(queues[c], place, OnQueue(c), t, Elsewhere);
    }

    lemma TakeTailKeeps(c: nat, p: Place, world: set<Tid>)
      requires Valid(world) && c < |queues| && queues[c] != [] && (p == Elsewhere || (p == Victim && c == me))
      ensures TakeTail(c, p).Valid(world) && TakeTail(c, p).Accounted(this)
    {
      hide Lists;
      var k := |queues[c]| - 1;
      var t := queues[c][k];
      Member(queues[c], place, OnQueue(c), k);
      Moves(t, p, world);
      Moved(queues[c], place, OnQueue(c), t, p);
      Moved(victims, place, Victim, t, p);
    }

    lemma GiveKeeps(c: nat, world: set<Tid>)
      requires Valid(world) && victims != [] && c < |queues| && (c == me || victims[0] != cur)
      ensures Give(c).Valid(world) && Give(c).Accounted(this)
      ensures victims[0] in home && (c == me ==> home[victims[0]] == c)
    {
      hide Lists;
      var t := victims[0];
      Member(victims, place, Victim, 0);
      Moves(t, OnQueue(c), world);
      Moved(queues[c], place, OnQueue(c), t, OnQueue(c));
      Moved(victims, place, Victim, t, OnQueue(c));
    }

    lemma ShuffleKeeps(world: set<Tid>)
      requires Valid(world) && victims != []
      ensures Shuffle().Valid(world) && Shuffle().Accounted(this)
    {}

    lemma RehomeKeeps(t: Tid, c: nat, world: set<Tid>)
      requires Valid(world) && t in world && place[t] == Elsewhere && t != cur && c < |queues|
      ensures this.(home := home[t := c]).Valid(world) && this.(home := home[t := c]).Accounted(this)
    {}
  }

  lemma Sound(s: State, world: set<Tid>)
    requires s.Valid(world)
    ensures s.me < |s.queues| && s.Accounted(s) && s.place.Keys == s.home.Keys == world
    ensures forall t :: t in world ==> s.home[t] < |s.queues|
  {}

  lemma AccountedOn(s: State, s': State, s'': State)
    requires s'.Accounted(s) && s''.Accounted(s')
    ensures s''.Accounted(s)
  {}

  class RunQueues {
    var s: State

    /** Empty queues, and the thread that the balancer interrupts. */
    constructor (cpus: nat, me: nat, cur: Tid)
      requires me < cpus
      ensures s.Valid({cur}) && s.victims == [] && s.taken == s.woken == {}
      ensures s.me == me && s.cur == cur && s.queues == seq(cpus, c => [])
    {
      s := State(me, cur, seq(cpus, c => []), map[cur := me], [], map[cur := Elsewhere], {}, {});
    }

    /** One action of another processor; an action that cannot happen does nothing. */
    method Other(e: Event, ghost world: set<Tid>)
      requires s.Valid(world)
      modifies this
      ensures s.Valid(world) && s.Follows(old(s)) && s.victims == old(s).victims
      ensures |old(s).queues[s.me]| <= |s.queues[s.me]|
    {
      hide Lists, State.Valid;
      Sound(s, world);
      match e {
        case Wake(t) =>
          if t in s.place && s.place[t] == Elsewhere {
            s.WakeKeeps(t, world);
            s := s.WakeUp(t, s.home[t]);
          }
        case Run(c) =>
          if c < |s.queues| && c != s.me && s.queues[c] != [] {
            s.TakeHeadKeeps(c, world);
            s := s.TakeHead(c);
          }
        case Steal(c) =>
          if c < |s.queues| && c != s.me && s.queues[c] != [] {
            s.TakeTailKeeps(c, Elsewhere, world);
            s := s.TakeTail(c, Elsewhere);
          }
        case Rehome(t, c) =>
          if t in s.place && s.place[t] == Elsewhere && t != s.cur && c < |s.queues| {
            s.RehomeKeeps(t, c, world);
            s := s.(home := s.home[t := c]);
          }
      }
    }

    /** A window in which other processors act. */
    method Others(events: seq<Event>, ghost world: set<Tid>)
      requires s.Valid(world)
      modifies this
      ensures s.Valid(world) && s.Follows(old(s)) && s.victims == old(s).victims
      ensures |old(s).queues[s.me]| <= |s.queues[s.me]|
      ensures events == [] ==> unchanged(this)
    {
      for i := 0 to |events|
        invariant s.Valid(world) && s.Follows(old(s)) && s.victims == old(s).victims
        invariant |old(s).queues[s.me]| <= |s.queues[s.me]|
        invariant i == 0 ==> unchanged(this)
      {
        ghost var before := s;
        Other(events[i], world);
        AccountedOn(old(s), before, s);
      }
    }

    /** Count the threads on all queues, and on our own. */
    method CountThreads(script: seq<seq<Event>>, ghost world: set<Tid>) returns (total: nat, mine: nat)
      requires s.Valid(world)
      modifies this
      ensures s.Valid(world) && s.Follows(old(s)) && s.victims == old(s).victims
      ensures mine <= |s.queues[s.me]|
      ensures Quiet(script) ==> unchanged(this) && total == TotalCount(s.queues) && mine == |s.queues[s.me]|
    {
      hide Lists, State.Valid, State.Accounted;
      Sound(s, world);
      total, mine := 0, 0;
      for i := 0 to |s.queues|
        invariant s.Valid(world) && s.Follows(old(s)) && s.victims == old(s).victims
        invariant mine <= |s.queues[s.me]|
        invariant Quiet(script) ==> unchanged(this) && total == CountUpTo(s.queues, i)
        invariant Quiet(script) && i > s.me ==> mine == |s.queues[s.me]|
      {
        ghost var before := s;
        Others(Window(script, i), world);
        AccountedOn(old(s), before, s);
        total := total + |s.queues[i]|;
        if i == s.me {
          mine := |s.queues[i]|;
        }
      }
    }

    /** Take n threads off the tail of our own queue. */
    method TakeVictims(n: nat, ghost world: set<Tid>)
      requires s.Valid(world) && s.victims == [] && n <= |s.queues[s.me]|
      modifies this
      ensures s.Valid(world) && s.Follows(old(s)) && |s.victims| == n
      ensures Took(old(s), s, n)
    {
      hide Lists, State.Valid, State.Accounted, State.OursOnly, State.TakeTail;
      Sound(s, world);
      ghost var begun := s;
      TookStart(s);
      for i := 0 to n
        invariant s.Valid(world) && s.Follows(begun)
        invariant Took(begun, s, i)
      {
        ghost var before := s;
        s.TakeTailKeeps(s.me, Victim, world);
        TookStep(begun, s, i);
        s := s.TakeTail(s.me, Victim);
        AccountedOn(begun, before, s);
      }
    }

    /** Hand victims to processor c until it has its share. */
    method FillQueue(c: nat, share: nat, n: nat, ghost world: set<Tid>) returns (toSend: nat)
      requires s.Valid(world) && c < |s.queues| && c != s.me && s.Pending(n)
      modifies this
      ensures s.Valid(world) && s.Follows(old(s)) && s.Pending(toSend)
      ensures Served(old(s), s, c, share, n, toSend) && (toSend == 0 || |s.queues[c]| >= share)
    {
      hide Lists, State.Valid, State.Accounted, Served, State.Shuffle, State.Give;
      Sound(s, world);
      ghost var begun := s;
      ServedStart(s, c, share, n);
      toSend := n;
      while |s.queues[c]| < share && toSend > 0
        invariant s.Valid(world) && s.Follows(begun) && s.Pending(toSend)
        invariant Served(begun, s, c, share, n, toSend)
        decreases toSend
      {
        ghost var before := s;
        var t := s.victims[0];
        FirstVictim(s, world);
        PendingStep(s, c, toSend);
        if t == s.cur {
          s.ShuffleKeeps(world);
          ServedShuffle(begun, s, c, share, n, toSend);
          s := s.Shuffle();
        } else {
          s.GiveKeeps(c, world);
          ServedGive(begun, s, c, share, n, toSend);
          s := s.Give(c);
        }
        AccountedOn(begun, before, s);
        toSend := toSend - 1;
      }
    }

    /** Hand the victims round the other processors. */
    method Distribute(share: nat, n: nat, script: seq<seq<Event>>, ghost world: set<Tid>)
      returns (toSend: nat)
      requires s.Valid(world) && |s.victims| == n
      modifies this
      ensures s.Valid(world) && s.Follows(old(s)) && s.Pending(toSend)
      ensures Quiet(script) ==> toSend <= n && Filled(old(s), s, share, n - toSend, |s.queues|)
      ensures Quiet(script) && Roomy(old(s), share, n) ==> toSend == 0
    {
      hide *;
      GoingStart(s, world, share, n, script);
      ghost var begun := s;
      toSend := n;
      var i := 0;
      while i < |s.queues| && toSend > 0
        invariant 0 <= i && |s.queues| == |begun.queues| && Going(begun, s, world, share, n, toSend, i, script)
        decreases |begun.queues| - i
      {
        ghost var before, n0 := s, toSend;
        GoingKnows(begun, s, world, share, n, toSend, i, script);
        toSend := ServeNext(i, share, toSend, script, world);
        GoingStep(begun, before, s, world, share, n, n0, toSend, i, script);
        i := i + 1;
      }
      GoingKnows(begun, s, world, share, n, toSend, i, script);
    }

    /** One turn of the distributing loop. */
    method ServeNext(i: nat, share: nat, n: nat, script: seq<seq<Event>>, ghost world: set<Tid>)
      returns (toSend: nat)
      requires s.Valid(world) && s.Pending(n) && i < |s.queues|
      modifies this
      ensures s.Valid(world) && s.Follows(old(s)) && s.Pending(toSend)
      ensures Quiet(script) ==> Turn(old(s), s, share, i, n, toSend)
    {
      hide Lists, State.Valid, State.Pending, State.Accounted, Served, Turn, Quiet, Window;
      Sound(s, world);
      toSend := n;
      if i != s.me {
        QuietWindow(script, |s.queues| + 1 + i);
        Others(Window(script, |s.queues| + 1 + i), world);
        StillPending(old(s), s, n);
        ghost var before := s;
        toSend := FillQueue(i, share, toSend, world);
        AccountedOn(old(s), before, s);
        Turned(before, s, share, i, n, toSend);
      } else {
        Turned(s, s, share, i, n, toSend);
      }
    }

    /** Put what is left of the victims back on our own queue. */
    method PutBack(ghost world: set<Tid>)
      requires s.Valid(world)
      modifies this
      ensures s.Valid(world) && s.Follows(old(s)) && s.victims == []
      ensures Returned(old(s), s)
    {
      hide Lists, State.Valid, State.Accounted, State.OursOnly, State.Give;
      Sound(s, world);
      ghost var begun := s;
      ReturningStart(s);
      while s.victims != []
        invariant s.Valid(world) && s.Follows(begun) && Returning(begun, s)
        decreases |s.victims|
      {
        ghost var before := s;
        s.GiveKeeps(s.me, world);
        ReturningStep(begun, s);
        s := s.Give(s.me);
        AccountedOn(begun, before, s);
      }
    }

    /** Take the last n threads of our queue and find places for them. */
    method SendOut(share: nat, n: nat, script: seq<seq<Event>>, ghost world: set<Tid>)
      requires s.Valid(world) && s.victims == [] && n <= |s.queues[s.me]|
      modifies this
      ensures s.Valid(world) && s.Follows(old(s)) && s.victims == []
      ensures Quiet(script) && Roomy(old(s), share, n) ==> Sent(old(s), s, share, n)
    {
      hide Lists, State.Valid, State.Pending, State.Accounted, Took, Filled, Sent, Returned, Roomy, Quiet, Window;
      Sound(s, world);
      TakeVictims(n, world);
      ghost var taken := s;
      RoomyTook(old(s), s, share, n);
      var toSend := Distribute(share, n, script, world);
      ghost var spread := s;
      AccountedOn(old(s), taken, s);
      QuietWindow(script, 2 * |s.queues| + 1);
      ReturnLeftovers(Window(script, 2 * |s.queues| + 1), world);
      AccountedOn(old(s), spread, s);
      if Quiet(script) && Roomy(old(s), share, n) {
        PassResult(old(s), taken, spread, s, share, n);
      }
    }

    /** If victims are left, take our lock once more and put them back. */
    method ReturnLeftovers(events: seq<Event>, ghost world: set<Tid>)
      requires s.Valid(world)
      modifies this
      ensures s.Valid(world) && s.Follows(old(s)) && s.victims == []
      ensures events == [] ==> Returned(old(s), s)
    {
      hide Lists, State.Valid, State.Accounted, Returned;
      Sound(s, world);
      if s.victims != [] {
        Others(events, world);
        ghost var before := s;
        PutBack(world);
        AccountedOn(old(s), before, s);
      } else {
        NothingLeft(s);
      }
    }

    /**
     The whole balancing pass.  Whatever other processors do meanwhile, a thread leaves the run queues
     only if another processor takes it and joins them only if another processor wakes it, each list
     stays free of duplicates, and the current thread keeps its processor.  If they do nothing, every
     thread above our share finds a place, in order, except that the current thread stays with us.
     */
    method ConsiderMigration(script: seq<seq<Event>>, ghost world: set<Tid>) returns (ghost share: nat)
      requires s.Valid(world) && s.victims == [] && s.taken == {} && s.woken == {}
      modifies this
      ensures s.Valid(world) && s.Follows(old(s)) && s.victims == []
      ensures Quiet(script) ==>
        && IsShare(|OnQueues(old(s).queues, |old(s).queues|)|, |s.queues|, share)
        && Balanced(old(s), s, share) && Levelled(old(s), s, share) && s.taken == {} && s.woken == {}
        && OnQueues(s.queues, |s.queues|) == OnQueues(old(s).queues, |old(s).queues|)
    {
      hide Lists, State.Valid, State.Accounted, Spare, Sent, Balanced, Levelled, TotalCount, DivRoundUp, IsShare;
      hide Quiet, Window, OnQueues;
      Sound(s, world);
      TotalIs(s.queues);
      var total, mine := CountThreads(script, world);
      var part := DivRoundUp(total, |s.queues|);
      share := part;
      if mine < part {
        if Quiet(script) { Undisturbed(old(s), s, share, world); }
        return;
      }
      QuietWindow(script, |s.queues|);
      ghost var counted := s;
      Others(Window(script, |s.queues|), world);
      ghost var locked := s;
      AccountedOn(old(s), counted, s);
      if Quiet(script) { Pigeonhole(s.queues, s.me, share); assert Roomy(s, share, mine - share); }
      SendOut(part, mine - part, script, world);
      AccountedOn(old(s), locked, s);
      if Quiet(script) {
        Undisturbed(old(s), s, share, world);
        Conserved(old(s), s, share, mine - share);
      }
    }
  }

  lemma TotalIs(qs: seq<seq<Tid>>)
    ensures TotalCount(qs) == |OnQueues(qs, |qs|)|
  {
    CountIs(qs, |qs|);
  }

  /** The last n threads of our queue are now the victims, in order. */
  ghost predicate Took(was: State, now: State, n: nat)
    requires was.me < |was.queues| && now.SameMachine(was) && n <= |was.queues[was.me]|
  {
    var mine := was.queues[was.me];
    && now.queues[was.me] == mine[..|mine| - n] && now.victims == mine[|mine| - n..]
    && (forall c :: 0 <= c < |was.queues| && c != was.me ==> now.queues[c] == was.queues[c])
    && now.OursOnly(was, [])
  }

  lemma TookStart(s: State)
    requires s.me < |s.queues| && s.victims == []
    ensures Took(s, s, 0)
  {}

  lemma TookStep(was: State, now: State, n: nat)
    requires was.me < |was.queues| && now.SameMachine(was) && n < |was.queues[was.me]| && Took(was, now, n)
    ensures now.TakeTail(was.me, Victim).SameMachine(was) && Took(was, now.TakeTail(was.me, Victim), n + 1)
  {
    var mine := was.queues[was.me];
    var k := |mine| - n;
    assert mine[..k][..k - 1] == mine[..k - 1];
    assert [mine[k - 1]] + mine[k..] == mine[k - 1..];
  }

  /** The first k victims have been dealt with: they are gone, but for the current thread, which waits at the end. */
  ghost predicate Passed(was: State, now: State, k: nat)
  {
    && k <= |was.victims|
    && now.victims == was.victims[k..] + Only(was.victims[..k], was.cur)
    && now.OursOnly(was, Without(was.victims[..k], was.cur))
  }

  /** Those of the first n - n' victims that are not the current thread are at the end of queue c, up to the share. */
  ghost predicate Served(was: State, now: State, c: nat, share: nat, n: nat, n': nat)
    requires c < |was.queues| && now.SameMachine(was)
  {
    && n' <= n && Passed(was, now, n - n')
    && (forall i :: 0 <= i < |was.queues| && i != c ==> now.queues[i] == was.queues[i])
    && now.queues[c] == was.queues[c] + Without(was.victims[..n - n'], was.cur)
    && (|now.queues[c]| <= share || n' == n)
  }

  lemma ServedStart(s: State, c: nat, share: nat, n: nat)
    requires c < |s.queues| && s.me < |s.queues|
    ensures Served(s, s, c, share, n, n)
  {}

  lemma FirstVictim(s: State, world: set<Tid>)
    requires s.Valid(world) && s.victims != []
    ensures s.victims[0] in s.home && forall i :: 0 < i < |s.victims| ==> s.victims[i] != s.victims[0]
  {}

  /** The next of the victims v, when k have been passed. */
  lemma NextVictim(v: seq<Tid>, k: nat, cur: Tid)
    requires k < |v|
    ensures var left := v[k..] + Only(v[..k], cur);
      left[0] == v[k] && left[1..] == v[k + 1..] + Only(v[..k], cur)
    ensures Only(v[..k + 1], cur) == Only(v[..k], cur) + if v[k] == cur then [cur] else []
    ensures Without(v[..k + 1], cur) == Without(v[..k], cur) + if v[k] == cur then [] else [v[k]]
  {
    hide Only, Without;
    assert v[..k + 1] == v[..k] + [v[k]];
    Appended(v[..k], v[k], cur);
  }

  lemma ServedShuffle(was: State, now: State, c: nat, share: nat, n: nat, n': nat)
    requires c < |was.queues| && c != was.me && now.SameMachine(was) && Served(was, now, c, share, n, n')
    requires 0 < n' && n <= |was.victims| && |now.queues[c]| < share && now.victims != [] && now.victims[0] == was.cur
    ensures now.Shuffle().SameMachine(was) && Served(was, now.Shuffle(), c, share, n, n' - 1)
  {
    hide Only, Without;
    NextVictim(was.victims, n - n', was.cur);
  }

  lemma ServedGive(was: State, now: State, c: nat, share: nat, n: nat, n': nat)
    requires c < |was.queues| && c != was.me && now.SameMachine(was) && Served(was, now, c, share, n, n')
    requires 0 < n' && n <= |was.victims| && |now.queues[c]| < share && now.victims != [] && now.victims[0] != was.cur
    requires now.victims[0] in now.home
    ensures now.Give(c).SameMachine(was) && Served(was, now.Give(c), c, share, n, n' - 1)
  {
    hide Only, Without;
    NextVictim(was.victims, n - n', was.cur);
  }

  lemma PendingStep(s: State, c: nat, n: nat)
    requires 0 < n && s.Pending(n) && c < |s.queues|
    requires forall i :: 0 < i < |s.victims| ==> s.victims[i] != s.victims[0]
    ensures s.victims[0] == s.cur ==> s.Shuffle().Pending(n - 1)
    ensures s.victims[0] != s.cur ==> s.Give(c).Pending(n - 1)
  {}

  lemma StillPending(s: State, s': State, n: nat)
    requires s.Pending(n) && s'.victims == s.victims && s'.cur == s.cur
    ensures s'.Pending(n)
  {}

  /** n threads have been dealt out, in order, to the first i queues other than ours, none beyond the share. */
  ghost predicate Filled(was: State, now: State, share: nat, n: nat, i: nat)
    requires was.me < |was.queues| && now.SameMachine(was) && i <= |was.queues|
  {
    && Passed(was, now, n) && now.queues[was.me] == was.queues[was.me]
    && (forall c :: 0 <= c < |was.queues| ==> Raised(was.queues[c], now.queues[c], share))
    && (forall c :: i <= c < |was.queues| ==> now.queues[c] == was.queues[c])
    && Gains(was.queues, now.queues, was.me, i) == Without(was.victims[..n], was.cur)
  }

  /** A queue has grown at its end, if at all, and no further than the share. */
  ghost predicate Raised(q: seq<Tid>, q': seq<Tid>, share: nat)
  {
    q <= q' && (|q'| <= share || q' == q)
  }

  /**
   The last n threads of our queue, less the current thread, are at the ends of the other queues,
   dealt out in order, none of which grew beyond the share; the current thread, if it was among
   them, is at the end of ours.
   */
  ghost predicate Sent(was: State, now: State, share: nat, n: nat)
    requires was.me < |was.queues| && now.SameMachine(was) && n <= |was.queues[was.me]|
  {
    var mine := was.queues[was.me];
    var keep := |mine| - n;
    && now.queues[was.me] == mine[..keep] + Only(mine[keep..], was.cur)
    && (forall c :: 0 <= c < |was.queues| && c != was.me ==> Raised(was.queues[c], now.queues[c], share))
    && Gains(was.queues, now.queues, was.me, |was.queues|) == Without(mine[keep..], was.cur)
    && now.OursOnly(was, Without(mine[keep..], was.cur))
  }

  /** The result of an undisturbed pass. */
  ghost predicate Balanced(was: State, now: State, share: nat)
    requires was.me < |was.queues| && now.SameMachine(was)
  {
    if |was.queues[was.me]| < share then now == was else Sent(was, now, share, |was.queues[was.me]| - share)
  }

  /**
   In numbers: our queue has kept its share, and the current thread besides if that was beyond it; no
   other queue has grown beyond the share.  A queue with less than its share keeps what it has.
   */
  ghost predicate Levelled(was: State, now: State, share: nat)
    requires was.me < |was.queues| && now.SameMachine(was)
  {
    var mine := was.queues[was.me];
    && |now.queues[was.me]| ==
         (if |mine| < share then |mine| else share + if was.cur in mine[share..] then 1 else 0)
    && (forall c :: 0 <= c < |was.queues| && c != was.me && |now.queues[c]| != |was.queues[c]| ==>
          |was.queues[c]| < |now.queues[c]| <= share)
  }

  lemma {:induction false} OnlyOnce(q: seq<Tid>, t: Tid)
    requires forall i, j :: 0 <= i < j < |q| ==> q[i] != q[j]
    ensures |Only(q, t)| == if t in q then 1 else 0
    decreases |q|
  {
    if q == [] {
    } else {
      OnlyOnce(q[..|q| - 1], t);
      assert q == q[..|q| - 1] + [q[|q| - 1]];
    }
  }

  lemma OursOnce(s: State, world: set<Tid>, share: nat)
    requires s.Valid(world) && share <= |s.queues[s.me]|
    ensures |Only(s.queues[s.me][share..], s.cur)| == if s.cur in s.queues[s.me][share..] then 1 else 0
  {
    assert Lists(s.queues[s.me], s.place, OnQueue(s.me));
    OnlyOnce(s.queues[s.me][share..], s.cur);
  }

  /** The victims are back at the end of our queue. */
  ghost predicate Returned(was: State, now: State)
    requires was.me < |was.queues| && now.SameMachine(was)
  {
    && now.queues[was.me] == was.queues[was.me] + was.victims
    && (forall c :: 0 <= c < |was.queues| && c != was.me ==> now.queues[c] == was.queues[c])
    && now.OursOnly(was, [])
  }

  /** The victims are on their way back. */
  ghost predicate Returning(was: State, now: State)
    requires was.me < |was.queues| && now.SameMachine(was)
  {
    && now.queues[was.me] + now.victims == was.queues[was.me] + was.victims
    && (forall c :: 0 <= c < |was.queues| && c != was.me ==> now.queues[c] == was.queues[c])
    && now.OursOnly(was, [])
  }

  lemma ReturningStart(s: State)
    requires s.me < |s.queues|
    ensures Returning(s, s)
  {}

  lemma ReturningStep(was: State, now: State)
    requires was.me < |was.queues| && now.SameMachine(was) && Returning(was, now)
    requires now.victims != [] && now.victims[0] in now.home && now.home[now.victims[0]] == now.me
    ensures now.Give(now.me).SameMachine(was) && Returning(was, now.Give(now.me))
    ensures |now.Give(now.me).victims| < |now.victims|
  {}

  lemma NothingLeft(s: State)
    requires s.me < |s.queues| && s.victims == []
    ensures Returned(s, s)
  {}

  lemma Undisturbed(was: State, now: State, share: nat, world: set<Tid>)
    requires was.Valid(world) && now.SameMachine(was)
    requires if |was.queues[was.me]| < share then now == was
             else Sent(was, now, share, |was.queues[was.me]| - share)
    ensures Balanced(was, now, share) && Levelled(was, now, share)
    ensures now.taken == was.taken && now.woken == was.woken
  {
    hide State.Valid, Only, Without, Gains;
    Sound(was, world);
    if |was.queues[was.me]| >= share { OursOnce(was, world, share); }
  }

  /** What one turn of the distributing loop does: nothing for our own queue. */
  ghost predicate Turn(was: State, now: State, share: nat, i: nat, n: nat, n': nat)
    requires i < |was.queues| && now.SameMachine(was)
  {
    if i == was.me then now == was && n == n'
    else Served(was, now, i, share, n, n') && (n' == 0 || |now.queues[i]| >= share)
  }

  lemma Turned(was: State, now: State, share: nat, i: nat, n: nat, n': nat)
    requires i < |was.queues| && now.SameMachine(was)
    requires if i == was.me then now == was && n == n'
             else Served(was, now, i, share, n, n') && (n' == 0 || |now.queues[i]| >= share)
    ensures Turn(was, now, share, i, n, n')
  {}

  /** Where the distributing loop stands before turn i: n' of n victims are left, and they still fit. */
  ghost predicate Underway(first: State, now: State, share: nat, n: nat, n': nat, i: nat)
    requires first.me < |first.queues| && now.SameMachine(first) && i <= |now.queues|
  {
    && |first.victims| == n && n' <= n && Filled(first, now, share, n - n', i)
    && (Roomy(first, share, n) ==> n' <= Spare(now.queues, now.me, share, i))
  }

  /** Passing k victims and then k' more. */
  lemma PassedOn(first: State, was: State, now: State, k: nat, k': nat)
    requires Passed(first, was, k) && k + k' <= |first.victims| && Passed(was, now, k') && was.cur == first.cur
    ensures Passed(first, now, k + k')
    ensures Without(first.victims[..k + k'], first.cur)
         == Without(first.victims[..k], first.cur) + Without(was.victims[..k'], was.cur)
  {
    var v := first.victims;
    assert was.victims[..k'] == v[k..k + k'];
    assert v[..k + k'] == v[..k] + v[k..k + k'];
    Joined(v[..k], v[k..k + k'], first.cur);
    assert was.victims[k'..] == v[k + k'..] + Only(v[..k], first.cur);
  }

  lemma UnderwayStep(first: State, was: State, now: State, share: nat, n: nat, n0: nat, n1: nat, i: nat)
    requires first.me < |first.queues| && was.SameMachine(first) && now.SameMachine(was) && i < |was.queues|
    requires Underway(first, was, share, n, n0, i) && Turn(was, now, share, i, n0, n1)
    ensures Underway(first, now, share, n, n1, i + 1)
  {
    hide Passed, Without, Spare;
    SpareStep(was, now, share, i, n0, n1);
    GainsFrame(first.queues, was.queues, now.queues, first.me, i);
    if i != was.me {
      PassedOn(first, was, now, n - n0, n0 - n1);
    }
  }

  /** Room is used up only by the threads handed out. */
  lemma SpareStep(was: State, now: State, share: nat, i: nat, n0: nat, n1: nat)
    requires now.SameMachine(was) && i < |was.queues| && Turn(was, now, share, i, n0, n1)
    ensures n0 <= Spare(was.queues, was.me, share, i) ==> n1 <= Spare(now.queues, now.me, share, i + 1)
  {
    SpareFrame(was.queues, now.queues, was.me, share, i + 1);
  }

  lemma {:induction false} GainsFrame(qs: seq<seq<Tid>>, qs': seq<seq<Tid>>, qs'': seq<seq<Tid>>, me: nat, i: nat)
    requires |qs| == |qs'| == |qs''| && i <= |qs|
    requires forall c :: 0 <= c < i ==> qs'[c] == qs''[c]
    ensures Gains(qs, qs', me, i) == Gains(qs, qs'', me, i)
    decreases i
  {
    hide Tail;
    if i == 0 {
    } else {
      GainsFrame(qs, qs', qs'', me, i - 1);
    }
  }

  /** All that the distributing loop keeps. */
  ghost predicate Going(first: State, now: State, world: set<Tid>, share: nat, n: nat, n': nat, i: nat,
                        script: seq<seq<Event>>)
  {
    && first.me < |first.queues| && now.Valid(world) && now.Follows(first) && now.Pending(n') && i <= |now.queues|
    && (Quiet(script) ==> Underway(first, now, share, n, n', i))
  }

  lemma GoingStart(s: State, world: set<Tid>, share: nat, n: nat, script: seq<seq<Event>>)
    requires s.Valid(world) && |s.victims| == n
    ensures Going(s, s, world, share, n, n, 0, script)
  {}

  lemma GoingStep(first: State, was: State, now: State, world: set<Tid>, share: nat, n: nat, n0: nat, n1: nat, i: nat,
                  script: seq<seq<Event>>)
    requires Going(first, was, world, share, n, n0, i, script) && i < |was.queues|
    requires now.Valid(world) && now.Follows(was) && now.Pending(n1)
    requires Quiet(script) ==> Turn(was, now, share, i, n0, n1)
    ensures Going(first, now, world, share, n, n1, i + 1, script)
    ensures |now.queues| == |was.queues|
  {
    hide Quiet, State.Valid, State.Pending, State.Accounted, Turn, Underway;
    AccountedOn(first, was, now);
    if Quiet(script) { UnderwayStep(first, was, now, share, n, n0, n1, i); }
  }

  lemma GoingKnows(first: State, now: State, world: set<Tid>, share: nat, n: nat, n': nat, i: nat,
                   script: seq<seq<Event>>)
    requires Going(first, now, world, share, n, n', i, script)
    ensures now.Valid(world) && now.Follows(first) && now.Pending(n') && i <= |now.queues| == |first.queues|
    ensures Quiet(script) ==> n' <= n && Filled(first, now, share, n - n', |now.queues|)
    ensures Quiet(script) && (i == |now.queues| || n' == 0) && Roomy(first, share, n) ==> n' == 0
  {
    hide Quiet, State.Valid, State.Pending, State.Accounted, Underway, Filled, Roomy;
    if Quiet(script) { UnderwayEnd(first, now, share, n, n', i); }
  }

  lemma UnderwayEnd(first: State, now: State, share: nat, n: nat, n': nat, i: nat)
    requires first.me < |first.queues| && now.SameMachine(first) && i <= |now.queues|
    requires Underway(first, now, share, n, n', i)
    ensures n' <= n && Filled(first, now, share, n - n', |now.queues|)
    ensures i == |now.queues| && Roomy(first, share, n) ==> n' == 0
  {
    hide Passed, Without;
    GainsRest(first.queues, now.queues, first.me, i, |now.queues|);
  }

  lemma NoTail(q: seq<Tid>)
    ensures Tail(q, |q|) == []
  {}

  lemma {:induction false} GainsRest(qs: seq<seq<Tid>>, qs': seq<seq<Tid>>, me: nat, i: nat, n: nat)
    requires |qs| == |qs'| && i <= n <= |qs|
    requires forall c :: i <= c < |qs| ==> qs'[c] == qs[c]
    ensures Gains(qs, qs', me, n) == Gains(qs, qs', me, i)
    decreases n
  {
    hide Tail;
    if i == n {
    } else {
      GainsRest(qs, qs', me, i, n - 1);
      NoTail(qs[n - 1]);
      assert Gains(qs, qs', me, n) == Gains(qs, qs', me, n - 1) + [];
    }
  }

  /** The other queues have room below the share for n threads. */
  ghost predicate Roomy(s: State, share: nat, n: nat)
  {
    n <= Spare(s.queues, s.me, share, 0)
  }

  lemma RoomyTook(was: State, now: State, share: nat, n: nat)
    requires was.me < |was.queues| && now.SameMachine(was) && n <= |was.queues[was.me]| && Took(was, now, n)
    ensures Roomy(was, share, n) ==> Roomy(now, share, n)
  {
    SpareIgnores(was.queues, now.queues, was.me, share, 0);
  }

  lemma PassResult(was: State, taken: State, spread: State, now: State, share: nat, n: nat)
    requires was.me < |was.queues| && taken.SameMachine(was) && spread.SameMachine(taken) && now.SameMachine(spread)
    requires n <= |was.queues[was.me]| && Took(was, taken, n)
    requires Filled(taken, spread, share, n, |was.queues|)
    requires Returned(spread, now)
    ensures Sent(was, now, share, n)
  {
    hide Without, Only, Gains;
    hide Raised;
    var out := was.queues[was.me][|was.queues[was.me]| - n..];
    assert taken.victims[..n] == out && taken.victims[n..] == [];
    assert spread.victims == Only(out, was.cur);
    assert now.queues[was.me] == was.queues[was.me][..|was.queues[was.me]| - n] + Only(out, was.cur);
    assert now.OursOnly(was, Without(out, was.cur));
    forall c | 0 <= c < |was.queues| && c != was.me ensures Raised(was.queues[c], now.queues[c], share) {
      assert Raised(taken.queues[c], spread.queues[c], share);
    }
    GainsSame(taken.queues, was.queues, spread.queues, now.queues, was.me, |was.queues|);
  }

  /** What our own queue does makes no difference to what the others gain. */
  lemma {:induction false} GainsSame(ps: seq<seq<Tid>>, qs: seq<seq<Tid>>, ps': seq<seq<Tid>>, qs': seq<seq<Tid>>,
                                     me: nat, n: nat)
    requires |ps| == |qs| == |ps'| == |qs'| && n <= |ps|
    requires forall c :: 0 <= c < n && c != me ==> ps[c] == qs[c] && ps'[c] == qs'[c]
    ensures Gains(ps, ps', me, n) == Gains(qs, qs', me, n)
  {
    hide Tail;
    if n == 0 {
    } else {
      GainsSame(ps, qs, ps', qs', me, n - 1);
    }
  }

  ghost function Times(q: seq<Tid>, t: Tid): (k: nat) { multiset(q)[t] }

  /** How often t is on the first n queues other than our own. */
  ghost function TimesElsewhere(qs: seq<seq<Tid>>, me: nat, n: nat, t: Tid): (k: nat)
    requires n <= |qs|
  {
    if n == 0 then 0 else TimesElsewhere(qs, me, n - 1, t) + if n - 1 == me then 0 else Times(qs[n - 1], t)
  }

  lemma {:induction false} TimesIn(qs: seq<seq<Tid>>, me: nat, n: nat, t: Tid)
    requires n <= |qs|
    ensures OnQueues(qs, n)[t] == TimesElsewhere(qs, me, n, t) + if me < n then Times(qs[me], t) else 0
  {
    if n == 0 {
    } else {
      TimesIn(qs, me, n - 1, t);
    }
  }

  lemma GainsLast(qs: seq<seq<Tid>>, qs': seq<seq<Tid>>, me: nat, n: nat, t: Tid)
    requires |qs| == |qs'| && 0 < n <= |qs| && (n - 1 != me ==> qs[n - 1] <= qs'[n - 1])
    ensures Times(Gains(qs, qs', me, n), t) == Times(Gains(qs, qs', me, n - 1), t)
            + if n - 1 == me then 0 else Times(qs'[n - 1], t) - Times(qs[n - 1], t)
  {
    if n - 1 != me {
      var more := Tail(qs'[n - 1], |qs[n - 1]|);
      assert qs'[n - 1] == qs[n - 1] + more;
    }
  }

  lemma NoTimes(t: Tid)
    ensures Times([], t) == 0
  {}

  /** The queues that grew hold what they held and what they gained. */
  lemma {:induction false} GainsCount(qs: seq<seq<Tid>>, qs': seq<seq<Tid>>, me: nat, n: nat, t: Tid)
    requires |qs| == |qs'| && n <= |qs|
    requires forall c :: 0 <= c < n && c != me ==> qs[c] <= qs'[c]
    ensures TimesElsewhere(qs', me, n, t) == TimesElsewhere(qs, me, n, t) + Times(Gains(qs, qs', me, n), t)
    decreases n
  {
    hide Tail, Times;
    if n == 0 {
      NoTimes(t);
    } else {
      GainsLast(qs, qs', me, n, t);
      GainsCount(qs, qs', me, n - 1, t);
    }
  }

  /** Conservation: an undisturbed pass only moves threads from queue to queue. */
  lemma Conserved(was: State, now: State, share: nat, n: nat)
    requires was.me < |was.queues| && now.SameMachine(was) && n <= |was.queues[was.me]| && Sent(was, now, share, n)
    ensures OnQueues(now.queues, |now.queues|) == OnQueues(was.queues, |was.queues|)
  {
    hide Without, Only, Gains, OnQueues, TimesElsewhere;
    var mine := was.queues[was.me];
    var keep := |mine| - n;
    Parts(mine[keep..], was.cur);
    assert mine == mine[..keep] + mine[keep..];
    forall t: Tid
      ensures OnQueues(now.queues, |now.queues|)[t] == OnQueues(was.queues, |was.queues|)[t]
    {
      TimesIn(was.queues, was.me, |was.queues|, t);
      TimesIn(now.queues, was.me, |was.queues|, t);
      GainsCount(was.queues, now.queues, was.me, |was.queues|, t);
    }
  }

  /** A thread among the gains is at the end of one of the queues. */
  lemma {:induction false} GainsFind(qs: seq<seq<Tid>>, qs': seq<seq<Tid>>, me: nat, n: nat, t: Tid) returns (c: nat)
    requires |qs| == |qs'| && n <= |qs| && t in Gains(qs, qs', me, n)
    ensures c < n && c != me && t in Tail(qs'[c], |qs[c]|)
    decreases n
  {
    hide Tail;
    c := n - 1;
    if c == me || t !in Tail(qs'[c], |qs[c]|) { c := GainsFind(qs, qs', me, n - 1, t); }
  }

  /** Every thread sent out but the current one ends on another processor's queue, and belongs to that processor. */
  lemma Placed(was: State, now: State, share: nat, n: nat, t: Tid, world: set<Tid>) returns (c: nat)
    requires was.me < |was.queues| && now.SameMachine(was) && n <= |was.queues[was.me]| && Sent(was, now, share, n)
    requires now.Valid(world) && t in was.queues[was.me][|was.queues[was.me]| - n..] && t != was.cur
    ensures c < |now.queues| && c != was.me
    ensures t in now.queues[c][|was.queues[c]|..] && now.place[t] == OnQueue(c) && now.home[t] == c
  {
    hide Without, Only, Gains;
    Parts(was.queues[was.me][|was.queues[was.me]| - n..], was.cur);
    c := GainsFind(was.queues, now.queues, was.me, |was.queues|, t);
    assert t in now.queues[c];
  }

  lemma QuietWindow(script: seq<seq<Event>>, k: nat)
    ensures Quiet(script) ==> Window(script, k) == []
  {}

  lemma {:induction false} SpareIgnores(qs: seq<seq<Tid>>, qs': seq<seq<Tid>>, me: nat, share: nat, i: nat)
    requires |qs| == |qs'| && i <= |qs|
    requires forall c :: 0 <= c < |qs| && c != me ==> qs[c] == qs'[c]
    ensures Spare(qs, me, share, i) == Spare(qs', me, share, i)
    decreases |qs| - i
  {
    if i == |qs| {
    } else {
      SpareIgnores(qs, qs', me, share, i + 1);
    }
  }

  lemma {:induction false} SpareFrame(qs: seq<seq<Tid>>, qs': seq<seq<Tid>>, me: nat, share: nat, i: nat)
    requires |qs| == |qs'| && i <= |qs|
    requires forall c :: i <= c < |qs| ==> qs[c] == qs'[c]
    ensures Spare(qs, me, share, i) == Spare(qs', me, share, i)
    decreases |qs| - i
  {
    if i == |qs| {
    } else {
      SpareFrame(qs, qs', me, share, i + 1);
    }
  }

  /** The actions of other processors before our k-th lock acquisition. */
  function Window(script: seq<seq<Event>>, k: nat): (w: seq<Event>)
  {
    if k < |script| then script[k] else []
  }

  ghost predicate Quiet(script: seq<seq<Event>>)
  {
    forall k :: 0 <= k < |script| ==> script[k] == []
  }
}
