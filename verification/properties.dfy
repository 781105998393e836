/**
  Properties of single calls of the runtime that hold in every reachable
  state (`Valid`): the scheduling order, the lock and condition hand-offs
  as the code performs them, the freshness of created threads, and the
  safety of record deletion.
 */
module Properties {
  import opened ThreadState
  import opened Runtime
  import opened Invariant

  /** `run_ready_thread` pops the head of the ready FIFO: the thread switched in
      is the oldest ready one, and (unless it was suspended inside
      `thread_wait`, whose tail may block again) the rest of the FIFO keeps
      its order (thread.cc:240-248). */
  lemma DispatchPopsHead(s: State)
    requires Valid(s) && !s.running && s.ready != []
    requires !PendingOf(s, s.ready[0]).InWait?
    ensures Dispatch(s).control == Resumed(s.ready[0], PendingOf(s, s.ready[0]))
    ensures Dispatch(s).post.ready == s.ready[1..]
    ensures Dispatch(s).post.running && Dispatch(s).post.current == s.ready[0]
  {
    var s1 := Transfer(s, ReadyQ, Running);
    assert Queue(s1, Running) == [s.ready[0]];
  }

  /** A thread that yields while no other thread is ready is switched straight
      back in, and the state is exactly what it was (thread.cc:93-95 with
      thread.cc:240-248 on a FIFO that holds only the caller). */
  lemma YieldAlone(s: State)
    requires Valid(s) && s.running && s.ready == []
    ensures ThreadYield(s) == Outcome(Resumed(s.current, InYield), s)
  {
    var me := s.current;
    var p := Park(s, ReadyQ, InYield);
    assert p.ready == [me];
    var s1 := Transfer(p, ReadyQ, Running);
    assert Queue(s1, Running) == [me];
    assert s1.running && s1.current == me && s1.ready == [];
    assert me !in s.resume;
    assert s1.resume - {me} == s.resume;
    var s2 := s1.(resume := s1.resume - {me});
    assert s2 == s;
    assert ThreadYield(s) == Resume(s2, InYield);
  }

  /** With another thread ready, `thread_yield` is round-robin: the head of the
      ready FIFO runs next and the caller joins the tail behind everyone
      already waiting (thread.cc:93-95). */
  lemma YieldRoundRobin(s: State)
    requires Valid(s) && s.running && s.ready != []
    requires !PendingOf(s, s.ready[0]).InWait?
    ensures ThreadYield(s).control == Resumed(s.ready[0], PendingOf(s, s.ready[0]))
    ensures ThreadYield(s).post.ready == s.ready[1..] + [s.current]
    ensures PendingOf(ThreadYield(s).post, s.current) == InYield
  {
    var p := Park(s, ReadyQ, InYield);
    assert p.ready == s.ready + [s.current];
    var t := s.ready[0];
    assert t in Queue(s, ReadyQ) && s.current in Queue(s, Running);
    assert t != s.current;
    assert PendingOf(p, t) == PendingOf(s, t);
    var s1 := Transfer(p, ReadyQ, Running);
    assert Queue(s1, Running) == [t];
    assert s1.ready == s.ready[1..] + [s.current];
  }

  /** Exactly what a yield does when another thread heads the ready FIFO: the
      caller goes to the tail with the yield tag, the head becomes current
      with its saved continuation consumed, and that continuation is run
      (thread.cc:93-95, 240-248). */
  lemma YieldSwitchesToHead(s: State)
    requires s.initialized && s.running && s.ready != [] && s.ready[0] != s.current
    ensures ThreadYield(s) ==
              Resume(s.(current := s.ready[0], ready := s.ready[1..] + [s.current],
                        resume := s.resume[s.current := InYield] - {s.ready[0]}),
                     PendingOf(s, s.ready[0]))
  {
    var t := s.ready[0];
    var p := Park(s, ReadyQ, InYield);
    assert p == s.(running := false, ready := s.ready + [s.current], resume := s.resume[s.current := InYield]);
    var s1 := Transfer(p, ReadyQ, Running);
    assert s1 == p.(running := true, current := t, ready := s.ready[1..] + [s.current]);
    assert PendingOf(p, t) == PendingOf(s, t);
  }

  /** Exactly what a contended `thread_lock` does when some thread is ready: the
      caller joins the lock's waiter FIFO with the lock's tag, the head of the
      ready FIFO becomes current with its saved continuation consumed, and that
      continuation is run (thread.cc:118-123, 240-248). */
  lemma ContendedLockSwitchesToHead(s: State, l: LockId)
    requires s.initialized && s.running && s.ready != [] && s.ready[0] != s.current
    requires OwnerOf(s, l) != s.current && OwnerOf(s, l) != Null
    ensures ThreadLock(s, l) ==
              Resume(s.(current := s.ready[0], ready := s.ready[1..],
                        lockWaiters := s.lockWaiters[l := LockWaiters(s, l) + [s.current]],
                        resume := s.resume[s.current := InLock(l)] - {s.ready[0]}),
                     PendingOf(s, s.ready[0]))
  {
    var t := s.ready[0];
    var p := Park(s, LockQ(l), InLock(l));
    assert p == s.(running := false, lockWaiters := s.lockWaiters[l := LockWaiters(s, l) + [s.current]],
                   resume := s.resume[s.current := InLock(l)]);
    var s1 := Transfer(p, ReadyQ, Running);
    assert s1 == p.(running := true, current := t, ready := s.ready[1..]);
    assert PendingOf(p, t) == PendingOf(s, t);
    assert ThreadLock(s, l) == Acquire(s, l) == Dispatch(p);
  }

  /** A contended `thread_lock` parks the caller at the tail of the lock's
      waiter FIFO, where it stays for the rest of the dispatch chain, suspended
      with the lock's tag, and the caller does not keep control
      (thread.cc:118-123). */
  lemma LockContended(s: State, l: LockId)
    requires Valid(s) && s.running
    requires OwnerOf(s, l) != s.current && OwnerOf(s, l) != Null
    ensures var o := ThreadLock(s, l);
              && s.current in LockWaiters(o.post, l)
              && PendingOf(o.post, s.current) == InLock(l)
              && !(o.post.running && o.post.current == s.current)
  {
    var o := ThreadLock(s, l);
    LockKeepsValid(s, l);
    assert (LockWaiters(s, l) + [s.current])[|LockWaiters(s, l)|] == s.current;
    assert s.current in LockWaiters(o.post, l);
    assert s.current in Queue(o.post, LockQ(l));
    if o.post.running {
      assert o.post.current in Queue(o.post, Running);
    }
  }

  /** A successful `thread_unlock` does not hand the lock over: ownership is
      cleared, and the head waiter merely becomes ready, still suspended inside
      `thread_lock` (thread.cc:146-154). */
  lemma UnlockWakesLazily(s: State, l: LockId)
    requires Valid(s) && s.running && OwnerOf(s, l) == s.current && l in s.owner
    requires LockWaiters(s, l) != []
    ensures var o := ThreadUnlock(s, l);
              var w := LockWaiters(s, l)[0];
              && o.control == Returned(0)
              && OwnerOf(o.post, l) == Null
              && o.post.ready == s.ready + [w]
              && PendingOf(o.post, w) == InLock(l)
              && w != s.current
  {
    var w := LockWaiters(s, l)[0];
    assert w in LockWaiters(s, l);
    assert w in Queue(s, LockQ(l)) && s.current in Queue(s, Running);
  }

  /** The tail of a contended `thread_lock` claims the lock without looking at
      it: whoever owns it when the waiter is switched back in loses it
      (thread.cc:124). */
  lemma ResumedWaiterOverwrites(s: State, l: LockId)
    requires Valid(s) && s.running && OwnerOf(s, l) != Null && OwnerOf(s, l) != s.current
    ensures Resume(s, InLock(l)).control == Resumed(s.current, InLock(l))
    ensures OwnerOf(Resume(s, InLock(l)).post, l) == s.current
  {
  }

  /** `thread_wait` hands the lock on at once: the head of the waiter FIFO
      becomes both owner and ready, whether or not the caller owned the lock
      (thread.cc:170-177). */
  lemma WaitHandsOffEagerly(s: State, l: LockId)
    requires Valid(s) && s.initialized && LockWaiters(s, l) != []
    ensures var r := Release(s, l);
              var w := LockWaiters(s, l)[0];
              && OwnerOf(r, l) == w
              && r.ready == s.ready + [w]
              && PendingOf(r, w) == InLock(l)
              && Valid(r)
  {
    ReleaseKeepsValid(s, l);
    assert LockWaiters(s, l)[0] in LockWaiters(s, l);
  }

  /** Exactly what `thread_wait` does: the lock goes at once to the head of its
      waiter FIFO, which becomes ready, or is cleared when nobody waits; the
      caller joins the tail of the condition's FIFO suspended in
      `thread_wait(l, c)`; and the dispatcher runs (thread.cc:170-181). */
  lemma WaitParksThenDispatches(s: State, l: LockId, c: CondId)
    requires s.initialized && s.running
    ensures LockWaiters(s, l) == [] ==>
              ThreadWait(s, l, c) ==
                Dispatch(s.(running := false, owner := s.owner[l := Null],
                            blocked := s.blocked[(l, c) := Blocked(s, l, c) + [s.current]],
                            resume := s.resume[s.current := InWait(l, c)]))
    ensures LockWaiters(s, l) != [] ==>
              ThreadWait(s, l, c) ==
                Dispatch(s.(running := false, owner := s.owner[l := LockWaiters(s, l)[0]],
                            ready := s.ready + [LockWaiters(s, l)[0]],
                            lockWaiters := Store(s.lockWaiters, l, LockWaiters(s, l)[1..]),
                            blocked := s.blocked[(l, c) := Blocked(s, l, c) + [s.current]],
                            resume := s.resume[s.current := InWait(l, c)]))
  {
    var r := Release(s, l);
    var p := Park(r, BlockQ(l, c), InWait(l, c));
    assert Store(r.blocked, (l, c), Blocked(r, l, c) + [s.current]) == r.blocked[(l, c) := Blocked(s, l, c) + [s.current]];
    assert p == r.(running := false, blocked := r.blocked[(l, c) := Blocked(s, l, c) + [s.current]],
                   resume := r.resume[s.current := InWait(l, c)]);
  }

  /** The tail of `thread_wait` is `thread_lock` on the same lock: a thread
      switched back in from a condition takes a free lock or queues for it
      again (thread.cc:188). The case where the lock is already its own is the
      -1 path of thread.cc:108-111, whose result `thread_wait` ignores; it is
      kept for completeness, although a thread suspended in `thread_wait(l, c)`
      never owns `l` in a reachable state. */
  lemma WaitTailRelocks(s: State, l: LockId, c: CondId)
    requires Valid(s) && s.running
    ensures OwnerOf(s, l) == s.current || OwnerOf(s, l) == Null ==>
              && Resume(s, InWait(l, c)).control == Resumed(s.current, InWait(l, c))
              && OwnerOf(Resume(s, InWait(l, c)).post, l) == s.current
    ensures OwnerOf(s, l) != s.current && OwnerOf(s, l) != Null ==>
              s.current in LockWaiters(Resume(s, InWait(l, c)).post, l)
  {
    if OwnerOf(s, l) != s.current && OwnerOf(s, l) != Null {
      var o := Resume(s, InWait(l, c));
      assert o == Acquire(s, l);
      assert LockWaiters(s, l) + [s.current] <= LockWaiters(o.post, l);
      assert (LockWaiters(s, l) + [s.current])[|LockWaiters(s, l)|] == s.current;
    }
  }

  /** `thread_create` hands out an id that is nowhere yet — not running, in no
      FIFO, never deleted, owning no lock, with no saved continuation — and puts
      it exactly once at the tail of the ready FIFO (thread.cc:71-78). */
  lemma CreateFresh(s: State)
    requires Valid(s) && s.initialized
    ensures forall x :: s.nextId !in Queue(s, x)
    ensures s.nextId !in s.freed && s.nextId !in s.resume
    ensures forall l :: OwnerOf(s, l) != s.nextId
    ensures var r := ThreadCreate(s, false).post;
              && Valid(r)
              && r.ready == s.ready + [s.nextId]
              && s.nextId !in s.ready
  {
    CreateKeepsValid(s, false);
    forall x ensures s.nextId !in Queue(s, x) {
      if s.nextId in Queue(s, x) {
        assert false;
      }
    }
    forall l ensures OwnerOf(s, l) != s.nextId {
      if l in s.owner {
        assert s.owner[l] < s.nextId;
      }
    }
    assert s.nextId !in Queue(s, ReadyQ);
  }

  /** A finishing thread keeps every lock it owns: `run_thread` never clears
      `lock_user` (thread.cc:263-281), so unless the thread switched in next
      finishes a pending lock or wait, every owner, the dead one included, is
      as before. */
  lemma FinishedOwnerKeepsLocks(s: State)
    requires s.running
    requires s.ready != [] ==> PendingOf(s, s.ready[0]).Start? || PendingOf(s, s.ready[0]).InYield?
    ensures forall l :: OwnerOf(Terminate(s).post, l) == OwnerOf(s, l)
  {
    var p := Transfer(Reap(s), Running, ReclaimQ);
    assert p.owner == s.owner;
    if s.ready != [] {
      assert PendingOf(p, s.ready[0]) == PendingOf(s, s.ready[0]);
    }
  }

  /** The end of `run_thread`: the records queued earlier are deleted, the
      finishing thread's own record is never among them, no record is deleted
      twice, and the thread that runs next is not a deleted one
      (thread.cc:264-281). */
  lemma TerminateFreesSafely(s: State)
    requires Valid(s) && s.running
    ensures var r := Terminate(s).post;
              && r.freed == s.freed + s.reclaim
              && s.current !in r.freed
              && NoDup(r.freed)
              && r.reclaim == [s.current]
              && (r.running ==> r.current !in r.freed)
  {
    TerminateKeepsValid(s);
    var r := Terminate(s).post;
    assert s.current in Queue(r, ReclaimQ);
    if r.running {
      assert r.current in Queue(r, Running);
    }
  }

  /** Repeating `thread_signal` once per waiter. */
  function SignalTimes(s: State, l: LockId, c: CondId, n: nat): (r: State)
    ensures s.initialized && n >= |Blocked(s, l, c)| ==> Blocked(r, l, c) == []
    decreases n
  {
    if n == 0 then s else SignalTimes(ThreadSignal(s, l, c).post, l, c, n - 1)
  }

  /** `thread_broadcast` is `thread_signal` repeated until the condition's FIFO
      is empty (thread.cc:225-234 against thread.cc:202-211). */
  lemma {:induction false} BroadcastIsRepeatedSignal(s: State, l: LockId, c: CondId)
    requires s.initialized
    ensures ThreadBroadcast(s, l, c).post == SignalTimes(s, l, c, |Blocked(s, l, c)|)
    decreases |Blocked(s, l, c)|
  {
    if Blocked(s, l, c) != [] {
      var s1 := ThreadSignal(s, l, c).post;
      assert s1 == Transfer(s, BlockQ(l, c), ReadyQ);
      BroadcastIsRepeatedSignal(s1, l, c);
    }
  }
}
