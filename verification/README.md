# Verified model of the OS/161 kernel core

This project models the parts of OS/161 2.0.2 (with its added frame allocator
and page table) that are hardest to get right, and proves what they promise:

- **64-bit arithmetic** (`Digits`, `Qdivrem`, `Muldi3`): Knuth's Algorithm D in
  base 2^16 on digit arrays, and two nested Karatsuba products with
  hand-written carry and borrow tests.
- **Thread lists and load balancing** (`ThreadList`, `Migration`): the doubly
  linked list with bookends on the heap, and the balancer under arbitrary
  interference from other processors while it holds no run-queue lock.
- **The thread switch** (`Scheduler`): spinlocks down to test-and-set,
  interrupt levels, run queues, wait channels, zombies, fork, wakeups,
  migration, interrupts and the idle loop as one transition system over any
  number of processors and threads. Results hold in every state of every run.
- **Sleeping synchronisation** (`Semaphore`, `Monitor`): semaphores, the sleep
  lock built on one (with `OPT_SYNCH` and `USE_SEMAPHORE_FOR_LOCK`), and
  condition variables, as transition systems over any number of threads.
- **Kernel heap** (`Pagerefs`, `Kheap`, `Kmalloc`, `HeapRuns`): the pageref
  bitmaps, the page and free lists as they lie in memory, every interleaving of
  kmalloc and kfree, including where the heap lock is dropped in mid-operation,
  and that the code in memory takes exactly the steps of those runs.
- **printf, snprintf, atoi** (`SnpBuffer`, `Printf`, `PrintText`, `Snprintf`,
  `Atoi`, `PrintParse`): the format state machine, the text of every
  conversion, the digit buffer, truncation, and the print/parse round trip.
- **Frames and page table** (`Coremap`, `FrameRuns`, `PageTable`): first fit
  over freed frames, the bump allocator, every interleaving of allocating and
  freeing frames, and FIFO ranks kept by renumbering.

Code that changes things in place is a class, an array algorithm or a loop with
invariants, proved against functions on values. Concurrent code is a transition
system whose steps are the code's own, down to single accesses of shared
memory where interleaving matters. Lemmas named `...Keeps`, `...Ok` and
`...Rep` carry the invariants; the table below lists the results.

## What the code does not promise

Following the code where it and its comments disagree, these expected
properties turned out to hold only under a condition. Each has a lemma that
gives the condition exactly, or one with a failing input, or both.

- Pagerefs: an entry whose root fails to get its page stays marked in use. When
  a root without a page has such entries, `freepageref` of an entry of a later
  root fails its assertion, and so does `kfree` of the last block of its page
  (`FreePasses`, `LeakBreaksFree`, `KfreePasses`, `LeakBreaksKfree`).
- kmalloc of more than 2^32 - 4096 bytes asks for no pages at all, because the
  rounding up wraps (`PagesEnough`, `HugeRequest`).
- `ram_stealmem` wraps for requests whose end passes 2^32, and can then succeed
  and move its mark backwards (`StealExact`, `StealWraps`, `Get`). With all
  memory handed out, an empty request stores a length past the end of the table
  (`RecordExact`, `RecordsPast`). A request that is empty, or negative when
  read as a long, returns a freed frame without reserving it (`GetFree`).
- The length of an allocation stays on record when it is freed. Freeing it once
  more can free frames of another one (`GiveExact`, `StaleLength`).
- With the flags `-` and `0` together, `%d` pads with zeros on the right, which
  read back as digits (`RoundTrip`, `FortyTwo`).
- Page replacement looks for rank 0, but every clock tick raises all ranks,
  adding over a process's oldest frame removes rank 0, and so does resetting it
  where the ranks have a gap. Replacement finds the oldest frame only if none of
  that happened since the process got the first of its present frames
  (`ReplacementExact`, `TickHides`, `GapHides`). Adding over a frame in the
  middle of its process's order leaves a gap (`AddExact`).
- A boot thread runs with state `S_READY` until its processor's first switch;
  from then on a running thread is `S_RUN` (`RunningState`, `BootReady`).

## Model

| member | source | states |
|---|---|---|
| `Qdivrem.Divide64` | os161-base-2.0.2/common/gcc-millicode/qdivrem.c:67-263 | for all 64-bit u and v with v > 0, u = q·v + r with 0 ≤ r < v, on the early return, the one-digit path and the long path |
| `Qdivrem.LongDivide` | os161-base-2.0.2/common/gcc-millicode/qdivrem.c:152-263 | Algorithm D on a divisor of two to four digits returns quotient and remainder, with or without a normalising shift |
| `Qdivrem.DivideByDigit` | os161-base-2.0.2/common/gcc-millicode/qdivrem.c:123-150 | the unrolled one-digit division returns quotient and remainder of the four-digit dividend |
| `Qdivrem.DividendLongEnough` | os161-base-2.0.2/common/gcc-millicode/qdivrem.c:157-161 | skipping leading zeros of the dividend never makes it shorter than the divisor, so m is not negative |
| `Qdivrem.ShiftAmount` | os161-base-2.0.2/common/gcc-millicode/qdivrem.c:167-171 | the shift brings the leading divisor digit to at least half the base, and no bit of it is lost |
| `Qdivrem.Normalise` | os161-base-2.0.2/common/gcc-millicode/qdivrem.c:167-175 | dividend and divisor are both multiplied by the same power of two, in place |
| `Qdivrem.Shl` | os161-base-2.0.2/common/gcc-millicode/qdivrem.c:265-279 | the digits shifted in place are the old number times 2^sh, modulo the digits there are |
| `Qdivrem.NothingLost` | os161-base-2.0.2/common/gcc-millicode/qdivrem.c:265-269 | when the product fits, no bit falls out at the left, as the comment on shl says |
| `Qdivrem.EstimateDigit` | os161-base-2.0.2/common/gcc-millicode/qdivrem.c:185-210 | D3 yields the largest digit that passes Knuth's two-digit test, with the jump into the loop for equal leading digits |
| `Qdivrem.TrialDigit` | os161-base-2.0.2/common/gcc-millicode/qdivrem.c:185-229 | an estimate that passes the test is the true quotient digit or one more |
| `Qdivrem.WindowEstimate` | os161-base-2.0.2/common/gcc-millicode/qdivrem.c:182-210 | the same for the digits at hand: qhat·v exceeds the window by less than v |
| `Qdivrem.SubtractDigit` | os161-base-2.0.2/common/gcc-millicode/qdivrem.c:217-221 | the wrapped 32-bit intermediate yields the exact digit and the exact borrow |
| `Qdivrem.MultiplySubtract` | os161-base-2.0.2/common/gcc-millicode/qdivrem.c:211-229 | the window becomes window − qhat·v modulo B^(n+1), and the borrow tells exactly whether that was negative |
| `Qdivrem.AddBack` | os161-base-2.0.2/common/gcc-millicode/qdivrem.c:231-237 | the window becomes window + v modulo B^(n+1) |
| `Qdivrem.DivideStep` | os161-base-2.0.2/common/gcc-millicode/qdivrem.c:182-240 | after one turn with at most one add-back the window holds its old value minus digit·v, within [0, v) |
| `Qdivrem.DivideDigits` | os161-base-2.0.2/common/gcc-millicode/qdivrem.c:176-240 | over all turns, dividend = quotient·divisor + what is left, which is below the divisor |
| `Qdivrem.Shr` | os161-base-2.0.2/common/gcc-millicode/qdivrem.c:247-254 | the remainder digits are divided in place by 2^d |
| `Qdivrem.Denormalise` | os161-base-2.0.2/common/gcc-millicode/qdivrem.c:242-258 | the remainder read from the array is the normalised one divided by 2^d |
| `Qdivrem.Denormalised` | os161-base-2.0.2/common/gcc-millicode/qdivrem.c:163-258 | quotient and remainder of the scaled numbers give those of the original ones |
| `Qdivrem.CombineSum` | os161-base-2.0.2/common/gcc-millicode/qdivrem.c:47-48 | COMBINE of two digits is the two-digit number, since its halves do not overlap |
| `Muldi3.Multiply64` | os161-base-2.0.2/common/gcc-millicode/muldi3.c:99-164 | for all signed 64-bit a and b the result is a·b modulo 2^64, as a signed number |
| `Muldi3.MultiplyUnsigned` | os161-base-2.0.2/common/gcc-millicode/muldi3.c:124-158 | the magnitudes' product modulo 2^64 from three partial products, with the small-number path |
| `Muldi3.MultiplyWords` | os161-base-2.0.2/common/gcc-millicode/muldi3.c:183-241 | for all 32-bit u and v the result is the exact 64-bit product |
| `Muldi3.Assemble` | os161-base-2.0.2/common/gcc-millicode/muldi3.c:214-241 | adding up high, middle and low terms loses no carry and no borrow |
| `Muldi3.AddInto` | os161-base-2.0.2/common/gcc-millicode/muldi3.c:223-232 | the test "sum below one of its terms" is true exactly when the addition carried |
| `Muldi3.SubtractFrom` | os161-base-2.0.2/common/gcc-millicode/muldi3.c:219-222 | the test "difference above what it was" is true exactly when the subtraction borrowed |
| `Muldi3.AddLow` | os161-base-2.0.2/common/gcc-millicode/muldi3.c:233-235 | likewise for the last addition into the low word |
| `Muldi3.Karatsuba` | os161-base-2.0.2/common/gcc-millicode/muldi3.c:140-156 | the product in terms of three half-size products and a signed middle term |
| `Muldi3.SignOut` | os161-base-2.0.2/common/gcc-millicode/muldi3.c:115-122 | negating the result exactly when the signs differ gives the signed product |
| `ThreadList.List.constructor` | os161-base-2.0.2/kern/thread/threadlist.c:60-72 | a new list is well linked between its bookends and holds nothing |
| `ThreadList.List.IsEmpty` | os161-base-2.0.2/kern/thread/threadlist.c:91-97 | the count says whether the sequence is empty |
| `ThreadList.List.InsertAfterNode` | os161-base-2.0.2/kern/thread/threadlist.c:105-120 | next links read the sequence with the thread inserted, prev links its reverse |
| `ThreadList.List.InsertBeforeNode` | os161-base-2.0.2/kern/thread/threadlist.c:125-140 | the same, before a node, which may be the tail bookend |
| `ThreadList.List.RemoveNode` | os161-base-2.0.2/kern/thread/threadlist.c:145-157 | the sequence loses exactly that thread, whose links become null |
| `ThreadList.List.AddHead` | os161-base-2.0.2/kern/thread/threadlist.c:162-170 | the sequence gains the thread in front and the count is its length |
| `ThreadList.List.AddTail` | os161-base-2.0.2/kern/thread/threadlist.c:172-180 | the sequence gains the thread at the end and the count is its length |
| `ThreadList.List.RemoveHead` | os161-base-2.0.2/kern/thread/threadlist.c:182-198 | null and no change when empty, else the first thread, detached |
| `ThreadList.List.RemoveTail` | os161-base-2.0.2/kern/thread/threadlist.c:200-216 | null and no change when empty, else the last thread, detached |
| `ThreadList.List.InsertAfter` | os161-base-2.0.2/kern/thread/threadlist.c:218-224 | the new thread follows the given one in the sequence |
| `ThreadList.List.InsertBefore` | os161-base-2.0.2/kern/thread/threadlist.c:226-232 | the new thread precedes the given one in the sequence |
| `ThreadList.List.Remove` | os161-base-2.0.2/kern/thread/threadlist.c:234-240 | the given thread leaves the sequence, the others keep their order |
| `ThreadList.List.Forward` | os161-base-2.0.2/kern/include/threadlist.h:94-97 | following next links visits the sequence in order and stops |
| `ThreadList.List.Backward` | os161-base-2.0.2/kern/include/threadlist.h:99-102 | following prev links visits the sequence in reverse and stops |
| `ThreadList.MoveAll` | os161-base-2.0.2/kern/thread/thread.c:1057-1059 | emptying one list onto another keeps both well linked and appends the threads in order |
| `Migration.Pigeonhole` | os161-base-2.0.2/kern/thread/thread.c:864-869 | where the share is the mean rounded up, the other queues have room for all threads above it |
| `Migration.DivRoundUp` | os161-base-2.0.2/kern/thread/thread.c:864 | the smallest share that holds all threads: share·cpus is enough and one less is not |
| `Migration.ShareUnique` | os161-base-2.0.2/kern/thread/thread.c:864 | there is only one such number |
| `Migration.RunQueues.constructor` | os161-base-2.0.2/kern/thread/thread.c:843-862 | a machine with empty queues and one thread to interrupt is in order |
| `Migration.RunQueues.CountThreads` | os161-base-2.0.2/kern/thread/thread.c:852-862 | if nobody interferes, the counts are the true total and our own length |
| `Migration.RunQueues.TakeVictims` | os161-base-2.0.2/kern/thread/thread.c:869-876 | the victims are exactly the last n threads of our queue, in queue order; the other queues and every thread's home are as before |
| `Migration.RunQueues.FillQueue` | os161-base-2.0.2/kern/thread/thread.c:883-928 | the first victims, less curthread, go to the end of that queue in order, up to its share, and no further thread's home changes; curthread, if passed, waits at the end of the list; a victim is always at hand |
| `Migration.RunQueues.SendOut` | os161-base-2.0.2/kern/thread/thread.c:878-942 | undisturbed and with room, the last n threads of our queue less curthread are dealt out in order to the ends of the other queues, none beyond the share, and curthread stays; disturbed, no thread leaves the lists but by another processor's hand |
| `Migration.RunQueues.ConsiderMigration` | os161-base-2.0.2/kern/thread/thread.c:843-946 | whatever others do at the points where no lock is held, a thread leaves the queues only if another processor took it and joins them only if another processor woke it, each list stays free of duplicates with homes matching, curthread keeps its processor, and the private list ends empty; undisturbed, the share is the number of queued threads over the processors rounded up, exactly the threads above it go out, in order, our queue ends with exactly the share (and curthread, if that was among them) or what it had if that was less, no other queue is filled beyond it, and the threads on all queues are the same ones |
| `Migration.Conserved` | os161-base-2.0.2/kern/thread/thread.c:864-942 | an undisturbed pass leaves the multiset of threads on all queues as it was |
| `Migration.Placed` | os161-base-2.0.2/kern/thread/thread.c:883-928 | every thread sent out but curthread ends at the end of another processor's queue and belongs to that processor |
| `Scheduler.DoKeeps` | os161-base-2.0.2/kern/thread/thread.c:447-764 | every step of every processor keeps the whole invariant of locks, levels, lists, states and processors; what whole calls do is in the rows from `SwitchReturns` on |
| `Scheduler.RunsKeep` | os161-base-2.0.2/kern/thread/thread.c:447-764 | so it holds in every state of every run of a booted machine |
| `Scheduler.SwitchedOut` | os161-base-2.0.2/kern/thread/thread.c:531-536 | a thread switched out, or forked and not yet started, has spl 1 and count 2 |
| `Scheduler.RunningLevel` | os161-base-2.0.2/kern/thread/spl.c:86-160 | a running thread's count is its spl plus its processor's spinlocks, and interrupts are on exactly when it is zero |
| `Scheduler.ResumedUnlocks` | os161-base-2.0.2/kern/thread/thread.c:696-715 | a thread back from the switch holds the run-queue lock of the processor it now runs on and no other lock, also after migration |
| `Scheduler.OneProcessor` | os161-base-2.0.2/kern/thread/thread.c:650-661 | no two processors ever run the same thread |
| `Scheduler.SomeList` | os161-base-2.0.2/kern/thread/thread.c:594-618 | no thread is lost: one that no processor is running is on some list |
| `Scheduler.OneList` | os161-base-2.0.2/kern/thread/thread.c:594-618 | a thread is on at most one of run queues, wait channels, zombie lists and private lists, and once |
| `Scheduler.QueuedReady` | os161-base-2.0.2/kern/thread/thread.c:601-619 | a queued thread is S_READY and at home: a sleeper's late store never overwrites its waker's |
| `Scheduler.RunningState` | os161-base-2.0.2/kern/thread/thread.c:696-745 | a thread past the context switch and on no list is S_RUN if and only if its processor has stored S_RUN before: what a processor runs from boot to its first switch is the one exception |
| `Scheduler.BootReady` | os161-base-2.0.2/kern/thread/thread.c:120-140 | a run, of a machine just booted, whose thread is running and S_READY |
| `Scheduler.StoringHolds` | os161-base-2.0.2/kern/thread/thread.c:584-619 | the run-queue lock is held from before a thread is listed until its state is stored |
| `Scheduler.IdleCovered` | os161-base-2.0.2/kern/thread/thread.c:621-647 | a processor idles with work queued only if an unidle interrupt is pending, although unlocking and idling are not atomic |
| `Scheduler.SpinlockExclusion` | os161-base-2.0.2/kern/thread/spinlock.c:74-134 | from a successful test-and-set to the store that clears the word, a spinlock belongs to one processor |
| `Scheduler.SpinnerWaits` | os161-base-2.0.2/kern/thread/spinlock.c:94-115 | a processor spinning on a set word waits for another one: no word is left set |
| `Scheduler.NoPanic` | os161-base-2.0.2/kern/thread/thread.c:293-304 | no assertion fails and no lock is taken twice: spinlock release, make_runnable, exorcise, thread_destroy, interrupt entry and exit |
| `Scheduler.ZombieKnown` | os161-base-2.0.2/kern/thread/thread.c:293-304 | what exorcise destroys is a zombie and the current thread of no processor |
| `Scheduler.QueuedWork` | os161-base-2.0.2/kern/thread/thread.c:586-600 | a thread that yields from an interrupt handler never idles |
| `Scheduler.ListsGuarded` | os161-base-2.0.2/kern/thread/thread.c:1014-1071 | every change of a run queue or channel is made by the holder of its lock, of a zombie or private list by its owner |
| `Scheduler.NeverStuck` | os161-base-2.0.2/kern/thread/thread.c:557-725 | every point of the code has a next step, but for waiting at a lock |
| `Scheduler.PlacingKeeps` | os161-base-2.0.2/kern/thread/thread.c:447-479 | making a thread runnable is safe also while the thread is still current on an idle processor |
| `Scheduler.GiveKeeps` | os161-base-2.0.2/kern/thread/thread.c:884-928 | giving a thread to another processor never gives away one whose stack is in use |
| `Scheduler.PickKeeps` | os161-base-2.0.2/kern/thread/thread.c:638-661 | the switch itself, also to the same thread, passes the run-queue lock from one thread to the next |
| `Scheduler.SwitchReturns` | os161-base-2.0.2/kern/thread/thread.c:557-725 | in every run, when a thread that called thread_switch is next back at its caller, by whichever processor and through the idle loop or not, it is at the interrupt level and in the interrupt frame it called from |
| `Scheduler.SwitchIdle` | os161-base-2.0.2/kern/thread/thread.c:567-579 | a switch from a handler that interrupted the idle loop changes nothing |
| `Scheduler.ForkStarts` | os161-base-2.0.2/kern/thread/thread.c:735-764 | when a forked thread first runs its function, interrupts are on and it is in no handler |
| `Scheduler.InterruptReturns` | os161-base-2.0.2/kern/arch/mips/locore/trap.c:153-198 | in every run, when the handler that interrupted a thread is over, also if it switched away and came back elsewhere, the thread is where it was, at level and count zero |
| `Scheduler.LevelSets` | os161-base-2.0.2/kern/thread/spl.c:131-160 | splx leaves the caller at the level asked for |
| `Scheduler.SwitchSleeps` | os161-base-2.0.2/kern/thread/thread.c:601-616 | a thread that goes to sleep is on that wait channel before its switch returns |
| `Scheduler.ExitIsFinal` | os161-base-2.0.2/kern/thread/thread.c:616-618 | a thread that switches out as a zombie is never back from the switch |
| `Scheduler.FirstIsPicked` | os161-base-2.0.2/kern/thread/thread.c:638-661 | in every run a processor changes its current thread only to the first thread of its run queue, which leaves the queue |
| `Scheduler.QueueOrder` | os161-base-2.0.2/kern/thread/thread.c:447-1071 | in every run a run queue or wait channel changes only by one thread joining at its end or leaving at its front, or, when the balancer takes one, at its end |
| `Scheduler.OrderKept` | os161-base-2.0.2/kern/thread/thread.c:447-1071 | so nobody overtakes: of two threads that stay on a run queue or channel the first stays first, through any steps of any processors |
| `Scheduler.WakeReturns` | os161-base-2.0.2/kern/thread/thread.c:1013-1071 | in every run, from the call to the return of wakeone or wakeall, exactly the first or all the threads leave the channel, and each of them has been on a run queue since the call |
| `Semaphore.CountExact` | os161-base-2.0.2/kern/thread/synch.c:88-135 | in every interleaving of loads and stores of the count, count = initial + Vs − Ps, of those that returned and those past their store |
| `Semaphore.CountAsserted` | os161-base-2.0.2/kern/thread/synch.c:101-133 | both assertions that the count is above zero hold, and what a thread loaded is still the count when it stores |
| `Semaphore.NoLostWakeup` | os161-base-2.0.2/kern/thread/synch.c:88-135 | while threads sleep, the count is at most the number of woken threads still to count down or find zero, plus one while a V has counted up and not yet woken anybody; so a count above zero always has somebody on the way |
| `Semaphore.QuietMeansEmpty` | os161-base-2.0.2/kern/thread/synch.c:88-135 | when nobody can move but by a new call, sleepers imply a count of zero |
| `Semaphore.ChannelOrder` | os161-base-2.0.2/kern/thread/synch.c:88-135 | in every run the channel changes only by the mover joining at its end or its first leaving, so sleepers are woken in the order in which they went to sleep |
| `Semaphore.RunsKeep` | os161-base-2.0.2/kern/thread/synch.c:88-135 | the invariant behind these holds in every state of every run |
| `Semaphore.CreatedRun` | os161-base-2.0.2/kern/thread/synch.c:48-73 | a semaphore can be created with any count, for any threads, so that the runs spoken of exist |
| `Monitor.RunsKeep` | os161-base-2.0.2/kern/thread/synch.c:195-384 | the joint invariant of lock, semaphore, spinlocks and channels holds in every state of every run |
| `Monitor.CreatedRun` | os161-base-2.0.2/kern/thread/synch.c:140-185 | and so can a lock |
| `Monitor.MutualExclusion` | os161-base-2.0.2/kern/thread/synch.c:195-251 | semaphore count plus threads between P and V is one; the owner is the only such thread |
| `Monitor.NoPanic` | os161-base-2.0.2/kern/thread/synch.c:195-384 | no assertion fails: ownership on entry, no owner after P, exactly one spinlock held when going to sleep |
| `Monitor.WaitAtomic` | os161-base-2.0.2/kern/thread/synch.c:326-384 | a signal or broadcast finds every thread that gave up the lock to wait already on the channel |
| `Monitor.ReturnsOwning` | os161-base-2.0.2/kern/thread/synch.c:195-229 | the last step of lock_acquire and of cv_wait leaves the caller as owner; `CallReturns` is about the whole calls |
| `Monitor.CallReturns` | os161-base-2.0.2/kern/thread/synch.c:195-384 | in every run, from call to return whatever others do: after lock_acquire, cv_wait, cv_signal and cv_broadcast the caller is the owner, after lock_release it is not |
| `Monitor.AnswerStays` | os161-base-2.0.2/kern/thread/synch.c:253-271 | whether the caller is the owner is the same at the call of lock_do_i_hold, at its return and whenever the field is read in between, so its answer is right |
| `Monitor.WaitIsWoken` | os161-base-2.0.2/kern/thread/synch.c:326-384 | cv_wait returns only after a signal or broadcast on its own variable took the caller off the channel, after the call |
| `Monitor.SignalWakes` | os161-base-2.0.2/kern/thread/synch.c:352-384 | from call to return, a broadcast leaves the channel empty and a signal takes off the first of those that were on it and leaves the others in order |
| `Monitor.OwnerStays` | os161-base-2.0.2/kern/thread/synch.c:231-251 | nobody but the owner's own release takes the lock away |
| `Monitor.NoSpinDeadlock` | os161-base-2.0.2/kern/thread/synch.c:231-349 | a thread in mid-operation and not asleep can move, or waits for one that can |
| `Pagerefs.Search` | os161-base-2.0.2/kern/vm/kmalloc.c:265-297 | the search yields the lowest clear bit of the first root that is not full, and its KASSERT(0) is unreachable |
| `Pagerefs.SlotUnique` | os161-base-2.0.2/kern/vm/kmalloc.c:265-297 | there is only one such entry, so the search is the only right answer |
| `Pagerefs.SomeClear` | os161-base-2.0.2/kern/vm/kmalloc.c:267-293 | a root with fewer entries in use than it has, has a clear bit |
| `Pagerefs.RunsValid` | os161-base-2.0.2/kern/vm/kmalloc.c:218-337 | in every run numinuse is the number of set bits, and every set bit is handed out, waiting, or lost |
| `Pagerefs.HandedOutFresh` | os161-base-2.0.2/kern/vm/kmalloc.c:218-298 | in every run an entry handed out was not out before, however threads overtook each other while the lock was dropped, and its root has a page |
| `Pagerefs.HandedOutOnce` | os161-base-2.0.2/kern/vm/kmalloc.c:218-337 | an entry handed out twice was freed in between |
| `Pagerefs.FreePasses` | os161-base-2.0.2/kern/vm/kmalloc.c:303-337 | an entry that is out can be freed if and only if no earlier root without a page has entries in use; that this is what freepageref asserts is in `FreeRef` |
| `Pagerefs.FreeRef` | os161-base-2.0.2/kern/vm/kmalloc.c:303-337 | the entry is found by its address and its bit cleared if and only if no earlier root without a page has entries in use; else the assertion fails |
| `Pagerefs.LeakBreaksFree` | os161-base-2.0.2/kern/vm/kmalloc.c:283-288 | a run that loses 256 entries and then holds an entry that cannot be freed |
| `Kheap.BlockType` | os161-base-2.0.2/kern/vm/kmalloc.c:851-867 | the smallest block size that is large enough |
| `Kheap.KernelHeap.constructor` | os161-base-2.0.2/kern/vm/kmalloc.c:207-213 | the heap starts with no page, empty lists and no pageref in use |
| `Kheap.KernelHeap.ReserveRef` | os161-base-2.0.2/kern/vm/kmalloc.c:254-298 | allocpageref up to where it lets go of the lock is the pageref machine's step, and keeps every heap page's pageref out |
| `Kheap.KernelHeap.FinishRef` | os161-base-2.0.2/kern/vm/kmalloc.c:218-250 | so is the rest, whatever became of the root meanwhile |
| `Kheap.ThreadPage` | os161-base-2.0.2/kern/vm/kmalloc.c:992-1008 | a new page's free list runs through all its blocks, last first, ends in null, and starts at the recorded offset |
| `Kheap.KernelHeap.FindFree` | os161-base-2.0.2/kern/vm/kmalloc.c:914-955 | the first page of the size with a free block, or none if there is none |
| `Kheap.KernelHeap.TakeBlock` | os161-base-2.0.2/kern/vm/kmalloc.c:922-954 | the page's free list loses its head, which is returned, and the code's assertions on offset and count hold |
| `Kheap.KernelHeap.AllocFromPages` | os161-base-2.0.2/kern/vm/kmalloc.c:910-955 | a block of the size if any page has one, else nothing and no change |
| `Kheap.KernelHeap.AllocFromNewPage` | os161-base-2.0.2/kern/vm/kmalloc.c:989-1018 | the page joins both lists in front and its last block is handed out |
| `Kheap.KernelHeap.FindPage` | os161-base-2.0.2/kern/vm/kmalloc.c:1068-1086 | the page an address is on, or none if it is on no heap page |
| `Kheap.KernelHeap.FreeBlock` | os161-base-2.0.2/kern/vm/kmalloc.c:1024-1156 | the block is on the free list again; the page and its pageref are given back exactly when that was its last live block, and then freepageref's assertion fails exactly if an earlier root without a page has entries in use; foreign and misaligned addresses are told apart |
| `Kheap.KernelHeap.RemoveLists` | os161-base-2.0.2/kern/vm/kmalloc.c:822-845 | in each list exactly the link to the page is redirected past it |
| `Kheap.KernelHeap.Discard` | os161-base-2.0.2/kern/vm/kmalloc.c:1137-1140 | both lists lose exactly that page and the bitmap exactly its pageref, found by its address; it fails if and only if an earlier root without a page has entries in use |
| `Kheap.FreeListWalk` | os161-base-2.0.2/kern/vm/kmalloc.c:142-152 | followed through memory, a page's free list visits nfree blocks of the page, all different, and ends, however far one follows it |
| `Kheap.BlocksApart` | os161-base-2.0.2/kern/vm/kmalloc.c:60-80 | different blocks, on one page or two, do not overlap |
| `Kmalloc.RunsValid` | os161-base-2.0.2/kern/vm/kmalloc.c:875-1219 | in every interleaving every block of every heap page is free or live, every page has one owner, root pages included, and a pageref is out exactly if it is a heap page's or in some thread's hands |
| `Kmalloc.LiveApart` | os161-base-2.0.2/kern/vm/kmalloc.c:1165-1219 | live blocks are at least as large as asked for and do not overlap |
| `Kmalloc.RootsApart` | os161-base-2.0.2/kern/vm/kmalloc.c:218-250 | no live block overlaps a page of pagerefs |
| `Kmalloc.RefsAccounted` | os161-base-2.0.2/kern/vm/kmalloc.c:254-337 | every pageref marked in use is a heap page's, in a thread's hands, waited for, or lost to a failed page allocation, and no other is |
| `Kmalloc.KfreePasses` | os161-base-2.0.2/kern/vm/kmalloc.c:1133-1144 | kfree of a live pointer goes through if and only if it does not empty a page whose pageref comes after a root that has entries in use and no page |
| `Kmalloc.LeakBreaksKfree` | os161-base-2.0.2/kern/vm/kmalloc.c:283-288 | a run in which 256 calls of kmalloc fail for lack of a page, one succeeds, and kfree of what it returned panics |
| `Kmalloc.FreeFinds` | os161-base-2.0.2/kern/vm/kmalloc.c:1208-1219 | kfree of a live pointer takes the right branch and finds its block, which is not on the free list |
| `Kmalloc.GivenBackOnce` | os161-base-2.0.2/kern/vm/kmalloc.c:1133-1144 | a page goes back through free_kpages only while a thread owns it and nothing live is on it, and is then nobody's |
| `Kmalloc.ListsAgree` | os161-base-2.0.2/kern/vm/kmalloc.c:822-845 | whenever the lock is free the list of all pages and the lists by size hold the same pages, each once and on one list by size only, and each page has a live block |
| `Kmalloc.PagesEnough` | os161-base-2.0.2/kern/vm/kmalloc.c:1181-1195 | the pages asked for are enough if and only if the rounding up does not pass 2^32, and then one page fewer would not be |
| `Kmalloc.HugeRequest` | os161-base-2.0.2/kern/vm/kmalloc.c:1187 | a request that gets no page |
| `HeapRuns.Heap.constructor` | os161-base-2.0.2/kern/vm/kmalloc.c:207-213 | the code starts where the runs of the kmalloc machine start |
| `HeapRuns.Heap.AllocSmall` | os161-base-2.0.2/kern/vm/kmalloc.c:910-955 | up to where it lets go of the lock, subpage_kmalloc takes the machine's step for a free block, or changes nothing when no page of the size has one |
| `HeapRuns.Heap.GotPage` | os161-base-2.0.2/kern/vm/kmalloc.c:957-985 | a page that alloc_kpages gives takes the machine's step and leaves the heap alone |
| `HeapRuns.Heap.ReserveRef` | os161-base-2.0.2/kern/vm/kmalloc.c:254-298 | so does allocpageref up to there |
| `HeapRuns.Heap.FinishRef` | os161-base-2.0.2/kern/vm/kmalloc.c:218-250 | and after it |
| `HeapRuns.Heap.InstallPage` | os161-base-2.0.2/kern/vm/kmalloc.c:989-1018 | and the installing of a page |
| `HeapRuns.Heap.Whole` | os161-base-2.0.2/kern/vm/kmalloc.c:1181-1195 | so do whole pages |
| `HeapRuns.Heap.GiveBack` | os161-base-2.0.2/kern/vm/kmalloc.c:1139-1144 | and pages given back |
| `HeapRuns.Heap.Free` | os161-base-2.0.2/kern/vm/kmalloc.c:1024-1219 | kfree of a live pointer takes the machine's step, whole pages or block, and panics if and only if the machine has none |
| `HeapRuns.Heap.Walk` | os161-base-2.0.2/kern/vm/kmalloc.c:142-152 | so in every state the code reaches each page's free list in memory visits its nfree free blocks, all different, none of them live, and ends |
| `SnpBuffer.Snp.Send` | os161-base-2.0.2/common/libc/printf/snprintf.c:73-93 | the buffer holds as much of all text sent as fits, and its old content after that |
| `Printf.FormatNumber` | os161-base-2.0.2/common/libc/printf/__printf.c:413-467 | the digit loop yields the numeral in base 8, 10 or 16 and stays within the 23-character buffer for every 64-bit value; the text ends at the null |
| `Printf.NumeralDenotes` | os161-base-2.0.2/common/libc/printf/__printf.c:435-459 | the numeral denotes its number in its base and has no needless leading zero |
| `Printf.ModifiersMean` | os161-base-2.0.2/common/libc/printf/__printf.c:180-232 | after any modifiers the width is the number their digits denote, the padding is zeros if the first digit is zero and blanks otherwise, and it is on the right if there is a minus sign |
| `Printf.OneConversion` | os161-base-2.0.2/common/libc/printf/__printf.c:496-563 | a format of one conversion prints that conversion in the field its modifiers describe |
| `PrintText.AmongModifiers` | os161-base-2.0.2/common/libc/printf/__printf.c:517-523 | the modifiers are exactly the characters the source lists |
| `PrintText.SizeMeans` | os161-base-2.0.2/common/libc/printf/__printf.c:180-202 | the size is long long exactly if the number of l modifiers since the last z is even and not zero, and long exactly if it is odd |
| `PrintText.Unsigned` | os161-base-2.0.2/common/libc/printf/__printf.c:240-343 | with any modifiers %x, %o and %u print the numeral in base 16, 8 and 10 of the argument modulo 2^32, or 2^64 if long long, after 0x or 0 for the flag #, in their field |
| `PrintText.Pointer` | os161-base-2.0.2/common/libc/printf/__printf.c:240-343 | %p prints 0x and the numeral in base 16 of the address, whatever the modifiers |
| `PrintText.Signed` | os161-base-2.0.2/common/libc/printf/__printf.c:240-491 | %d prints the sign and the decimal numeral of the number in range that the argument is congruent to |
| `PrintText.Text` | os161-base-2.0.2/common/libc/printf/__printf.c:535-545 | %s prints the string up to its first null character, or (null) |
| `PrintText.Character` | os161-base-2.0.2/common/libc/printf/__printf.c:546-563 | %c prints the low byte as a character, and nothing for a null |
| `PrintText.Itself` | os161-base-2.0.2/common/libc/printf/__printf.c:546-563 | an unknown conversion prints its own character |
| `PrintText.Literal` | os161-base-2.0.2/common/libc/printf/__printf.c:498-510 | text without a percent sign prints itself |
| `PrintText.Sequence` | os161-base-2.0.2/common/libc/printf/__printf.c:498-563 | a conversion prints what it prints alone, and the rest of the format what it would with the arguments left |
| `PrintText.Two` | os161-base-2.0.2/common/libc/printf/__printf.c:498-563 | so two conversions print the first argument by the first and the second by the second |
| `PrintText.Simple` | os161-base-2.0.2/common/libc/printf/__printf.c:498-563 | the bare conversions, with and without #, spelled out for every argument |
| `PrintText.Denoting` | os161-base-2.0.2/common/libc/printf/__printf.c:413-467 | what %x, %o, %u and %llx print, read in that base, is the argument modulo 2^32 or 2^64 |
| `PrintText.Samples` | os161-base-2.0.2/common/libc/printf/__printf.c:323-343 | 255 in %x is ff and 8 in %o is 10 |
| `Printf.Session.Modify` | os161-base-2.0.2/common/libc/printf/__printf.c:180-232 | each modifier changes the state as the specification says, and the assertion on digits holds |
| `Printf.Session.GetNum` | os161-base-2.0.2/common/libc/printf/__printf.c:240-310 | sign and magnitude together are the argument's value at its size, also for the most negative one |
| `Printf.Session.PrintStuff` | os161-base-2.0.2/common/libc/printf/__printf.c:365-404 | prefixes, padding and text come out in the order the flags ask for, padded to the width |
| `Printf.Session.PrintInteger` | os161-base-2.0.2/common/libc/printf/__printf.c:323-491 | the text is the conversion of the specification, whose meaning per conversion is in the `PrintText` rows |
| `Printf.Session.SendChar` | os161-base-2.0.2/common/libc/printf/__printf.c:496-563 | each character moves the format machine and produces its text |
| `Printf.Vprintf` | os161-base-2.0.2/common/libc/printf/__printf.c:565-592 | everything sent is the output the format denotes, and its length is returned; what a format denotes is in the `PrintText` rows |
| `Snprintf.Vsnprintf` | os161-base-2.0.2/common/libc/printf/snprintf.c:98-142 | the buffer holds the first min(len−1, total) characters of what the format denotes and a null, is unchanged beyond and for len 0, and the total is returned, as section 7.19.6.5 of ISO/IEC 9899:1999 asks |
| `Atoi.Parse` | os161-base-2.0.2/common/libc/stdlib/atoi.c:49-101 | blanks, sign and digits denote a number, returned modulo 2^32 as an int |
| `Atoi.BlanksIgnored` | os161-base-2.0.2/common/libc/stdlib/atoi.c:56-59 | spaces and tabs in front make no difference |
| `Atoi.SignsMean` | os161-base-2.0.2/common/libc/stdlib/atoi.c:61-68 | before digits plus makes no difference and minus negates |
| `PrintParse.RoundTrip` | os161-base-2.0.2/common/libc/printf/__printf.c:365-491 | for every 32-bit n and every string of modifiers, atoi of what printf prints for that %d is n if and only if not: a minus sign, digits that start with zero and denote more than the number's length, and n not zero |
| `PrintParse.FortyTwo` | os161-base-2.0.2/common/libc/printf/__printf.c:365-404 | "%-05d" of 42 prints 42000, which reads back as 42000 |
| `PrintParse.ZerosShow` | os161-base-2.0.2/common/libc/printf/__printf.c:400-403 | appended zeros change every number but zero, also modulo 2^32 |
| `PrintParse.NumeralValue` | os161-base-2.0.2/common/libc/stdlib/atoi.c:70-92 | the digits of a numeral, read left to right, give back the number |
| `Coremap.Search` | os161-base-2.0.2/kern/vm/coremap.c:56-66 | the lowest start of a run of free frames that is long enough, or none if there is none; a request for no frames, or for a negative number, finds the first free one |
| `Coremap.AsLong` | os161-base-2.0.2/kern/vm/coremap.c:51 | the number of pages read as a long is the one in range that is congruent to it |
| `Coremap.Frames.constructor` | os161-base-2.0.2/kern/vm/coremap.c:15-35 | after bootstrap no frame is free and nothing can be freed |
| `Coremap.Frames.GetFree` | os161-base-2.0.2/kern/vm/coremap.c:47-81 | fails only if there is no such run; else exactly the frames reserved become used, they were nobody's, and the length is recorded; a request that is empty or negative as a long reserves none |
| `Coremap.Frames.Free` | os161-base-2.0.2/kern/vm/coremap.c:84-103 | exactly as many frames as are on record become free; outstanding allocations and free frames stay apart if and only if no other allocation has any of them, as it is for every outstanding one |
| `Coremap.GiveUndoesTake` | os161-base-2.0.2/kern/vm/coremap.c:68-99 | frames taken from a run of free ones and given back leave the table as it was |
| `Coremap.Frames.Get` | os161-base-2.0.2/kern/vm/coremap.c:105-124 | freed frames first, and exactly those reserved leave the free ones; else the bump allocator's answer, and nothing else moves; where that is right outstanding allocations stay disjoint and frame 0 is never among them, where it is wrong what is handed out ends past memory |
| `Coremap.Frames.GetNew` | os161-base-2.0.2/kern/vm/coremap.c:110-123 | the part of it after the search for freed frames |
| `Coremap.RecordExact` | os161-base-2.0.2/kern/vm/coremap.c:117-121 | the length is recorded within the table if and only if the table is not active, or freed frames serve, or some memory has not been handed out, or the bump allocator refuses |
| `Coremap.RecordsPast` | os161-base-2.0.2/kern/vm/coremap.c:117-121 | an empty request with all memory handed out records past the table |
| `Coremap.GiveExact` | os161-base-2.0.2/kern/vm/coremap.c:97-99 | giving frames back keeps allocations and free frames apart if and only if no other allocation has them |
| `Coremap.StaleLength` | os161-base-2.0.2/kern/vm/coremap.c:93 | a table in which freeing an address a second time would free half of another allocation |
| `Coremap.StealExact` | os161-base-2.0.2/kern/arch/mips/vm/ram.c:94-110 | the bump allocator is right if and only if the end of the region does not wrap to an address within memory |
| `Coremap.StealWraps` | os161-base-2.0.2/kern/arch/mips/vm/ram.c:100-107 | a request that succeeds and moves the mark back |
| `FrameRuns.RunsKeep` | os161-base-2.0.2/kern/vm/coremap.c:47-124 | in every interleaving of getppages, freeppages and bootstrap each frame has one owner at most, free frames none, and recorded lengths are right |
| `FrameRuns.FramesApart` | os161-base-2.0.2/kern/vm/coremap.c:105-124 | outstanding allocations share no frame, lie in memory handed out, and hold no free frame |
| `FrameRuns.HandsApart` | os161-base-2.0.2/kern/vm/coremap.c:84-124 | nor do they share one with what a thread inside the two functions has in hand, nor do two threads |
| `FrameRuns.GotFresh` | os161-base-2.0.2/kern/vm/coremap.c:56-115 | frames found or newly taken were nobody's, whatever happened while no lock was held |
| `FrameRuns.FreedWhole` | os161-base-2.0.2/kern/vm/coremap.c:93-101 | although the length is read without a lock, freeing an allocation frees all its frames if its length was recorded, and none if it was made before the table was active |
| `FrameRuns.BootRun` | os161-base-2.0.2/kern/vm/coremap.c:15-35 | such runs exist |
| `PageTable.Table.constructor` | os161-base-2.0.2/kern/vm/pt.c:23-48 | all frames of a new table are free |
| `PageTable.Table.AddEntry` | os161-base-2.0.2/kern/vm/pt.c:50-68 | the step for an addition, in place: a rank one above the highest its process has, whoever had the frame; what the frame then holds is in `HasWhatWasAdded` and `AddedFound` |
| `PageTable.Table.LastRank` | os161-base-2.0.2/kern/vm/pt.c:58-62 | the highest rank of the process, -1 if it has no frames |
| `PageTable.HasWhatWasAdded` | os161-base-2.0.2/kern/vm/pt.c:50-134 | in every run a frame is in use exactly if something was added to it and it was not reset since, and then has the process, address and status of the last addition |
| `PageTable.AddedFound` | os161-base-2.0.2/kern/vm/pt.c:50-96 | a lookup right after an addition succeeds, and gives that frame and status if and only if no higher frame has the same process and address |
| `PageTable.Table.ResetEntry` | os161-base-2.0.2/kern/vm/pt.c:118-134 | the frame is free and the ranks of its process behind it close up |
| `PageTable.Table.TickAll` | os161-base-2.0.2/kern/vm/pt.c:10-21 | every rank in use moves up by one |
| `PageTable.Table.Replacement` | os161-base-2.0.2/kern/vm/pt.c:98-116 | a frame of the process with rank 0, or -1 if and only if there is none |
| `PageTable.FifoOrder` | os161-base-2.0.2/kern/vm/pt.c:10-134 | in every run of additions, resets and ticks, whatever was added over what, ranks are distinct and order a process's frames as they were added |
| `PageTable.OldestFirst` | os161-base-2.0.2/kern/vm/pt.c:98-116 | a frame of rank 0 is its process's oldest |
| `PageTable.AddExact` | os161-base-2.0.2/kern/vm/pt.c:50-68 | an addition keeps each process's ranks consecutive if and only if the frame is free, its process's oldest, or the youngest of another process |
| `PageTable.Consecutive` | os161-base-2.0.2/kern/vm/pt.c:10-134 | in every run of such additions ranks are consecutive, and the lowest counts the ticks and the additions over the oldest frame since the process got the first of its present frames |
| `PageTable.ReplacementExact` | os161-base-2.0.2/kern/vm/pt.c:98-116 | in every run, replacement finds a frame if and only if the process has frames and, since it got the first of them, there was no tick, no addition over its oldest frame, and no reset of its oldest frame with no frame of the next rank |
| `PageTable.GapHides` | os161-base-2.0.2/kern/vm/pt.c:50-134 | a run without a tick or an addition over the oldest frame, after which the process has a frame and replacement finds none |
| `PageTable.TickHides` | os161-base-2.0.2/kern/vm/pt.c:10-21 | a run of one addition and one tick after which the process has a frame and replacement finds none |
| `PageTable.Table.Lookup` | os161-base-2.0.2/kern/vm/pt.c:70-96 | the highest frame with that process and address and its status, or none if none has them |

## Left out

- End-to-end paging, swapping, TLB handling and process exit: their callers and callees disagree about arguments and locks, so the code decides no clean property of the whole.
- Device drivers, file systems, system calls, program loading and boot before the first processor structure exists.
- Memory ordering: all steps are sequentially consistent; memory barriers and the assembly of the context switch are not modelled.
- Inter-processor interrupts other than unidle, and the interrupt lock itself: sending and receiving one is a single step.
- Scheduling fairness and liveness: the results say what never happens and that no step is stuck, not that every thread eventually runs.
- The remaining 64-bit helpers, string functions and the thin wrappers around division: they would only add easy members.
- The heap's debugging modes, and the contents of allocated and freed blocks apart from the free-list words.
- Kernel stacks and names of threads, and the failure paths of fork for lack of memory.
- Qdivrem.Divide64: division by zero, a deliberate trap, is excluded; the caller's remainder pointer is always given.
- Scheduler.Enabled: callers of yield and exit hold no spinlock and handlers return without one, as the kernel requires of them.
- Monitor.Do: lock_acquire's first call of lock_do_i_hold, whose only effect is a message, is not modelled.
- Kmalloc.Next: whole-page requests are those whose rounding up does not wrap; what happens otherwise is in PagesEnough.
- Printf.Output: arguments that do not match the format, undefined in C, read as 0 or as a null string; field widths do not overflow; a format holds no null character.
- Coremap.Frames.Get: the call is one step; interleaved calls are in FrameRuns. A length that would be recorded past the table is excluded, see RecordExact.
- Coremap.Frames.Free: lengths on record that reach past the table, left by requests of RecordExact's and StealExact's kind, are excluded.
- FrameRuns.Next: requests are not empty and do not pass 2^32; callers free only what they were given, and once.
- PageTable.EntryAfter: ranks do not overflow.
- Semaphore.Do: the count does not pass 2^32, which V asserts.
