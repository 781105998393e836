/**
  The transitions of `thread.cc`: the eight public calls, the dispatcher
  `run_ready_thread` and the tail of `run_thread` that runs after a thread's
  start function returns.

  A context switch is "the head of the ready FIFO becomes current". The code a
  thread runs after it is switched back in is the rest of the call it was
  suspended in, recorded as its `Pending` tag; `Resume` runs that rest. Every
  call reports who has control afterwards as a `Control`.
 */
module Runtime {
  import opened ThreadState

  datatype Control =
    | Returned(code: int)               // the caller keeps control and its call returns `code`
    | Resumed(thread: Tid, call: Pending) // the caller was suspended or ended; `thread` was
                                          // switched in and its pending call returned 0
                                          // (for `Start`: it begins its start function)
    | Exited                            // the ready FIFO was empty: the root continuation
                                        // resumed and the library exits

  datatype Outcome = Outcome(control: Control, post: State)

  /** The fields no scheduling step touches. */
  predicate SchedulingFrame(s: State, r: State) {
    && r.initialized == s.initialized
    && r.reclaim == s.reclaim
    && r.freed == s.freed
    && r.nextId == s.nextId
    && r.blocked == s.blocked
  }

  /** The caller saves its context with tag `p` and waits in slot `x`. */
  function Park(s: State, x: Slot, p: Pending): (r: State)
    requires s.running && x != Running
    ensures !r.running && r.current == s.current
    ensures Queue(r, x) == Queue(s, x) + [s.current]
    ensures forall y :: y != x && y != Running ==> Queue(r, y) == Queue(s, y)
    ensures r.resume == s.resume[s.current := p] && r.owner == s.owner
    ensures x != ReclaimQ ==> r.reclaim == s.reclaim
    ensures x != ReadyQ ==> r.ready == s.ready
    ensures !x.BlockQ? ==> r.blocked == s.blocked
    ensures !x.LockQ? ==> r.lockWaiters == s.lockWaiters
    ensures r.initialized == s.initialized && r.freed == s.freed && r.nextId == s.nextId
  {
    Transfer(s, Running, x).(resume := s.resume[s.current := p])
  }

  /** `run_ready_thread` (thread.cc:238-254): pop the head of the ready FIFO and
      switch to it; with an empty ready FIFO, resume the root continuation. */
  function Dispatch(s: State): (o: Outcome)
    requires !s.running
    ensures !o.control.Returned?
    ensures o.control.Exited? <==> !o.post.running
    ensures o.control.Resumed? ==> o.post.current == o.control.thread
    ensures s.ready == [] ==> o == Outcome(Exited, s)
    ensures s.ready != [] ==> |o.post.ready| < |s.ready|
    ensures SchedulingFrame(s, o.post)
    ensures forall k :: LockWaiters(s, k) <= LockWaiters(o.post, k)
    decreases |s.ready|, 0
  {
    if s.ready == [] then Outcome(Exited, s)
    else
      var t := s.ready[0];
      var s1 := Transfer(s, ReadyQ, Running);
      Resume(s1.(resume := s1.resume - {t}), PendingOf(s, t))
  }

  /** The rest of the call the newly current thread was suspended in:
      nothing for a fresh thread or a yield; `lock_user[lock] = current_thread`
      for a contended lock (thread.cc:124); the `thread_lock` call that ends
      `thread_wait` (thread.cc:188), whose own result `thread_wait` ignores. */
  function Resume(s: State, p: Pending): (o: Outcome)
    requires s.running
    ensures !o.control.Returned?
    ensures o.control.Exited? <==> !o.post.running
    ensures o.control.Resumed? ==> o.post.current == o.control.thread
    ensures !p.InWait? ==> o.control == Resumed(s.current, p) && o.post.ready == s.ready
    ensures p.Start? || p.InYield? ==> o.post == s
    ensures p.InLock? ==> o.post.resume == s.resume && o.post.running
    ensures p.InLock? ==> OwnerOf(o.post, p.lock) == s.current
    ensures p.InLock? ==> forall l :: l != p.lock ==> OwnerOf(o.post, l) == OwnerOf(s, l)
    ensures p.InWait? && OwnerOf(s, p.lock) == s.current ==> o == Outcome(Resumed(s.current, p), s)
    ensures p.InWait? && OwnerOf(s, p.lock) != s.current && OwnerOf(s, p.lock) == Null ==>
              && o.control == Resumed(s.current, p)
              && o.post == s.(owner := s.owner[p.lock := s.current])
    ensures p.InWait? && OwnerOf(s, p.lock) != s.current && OwnerOf(s, p.lock) != Null ==>
              s.current in LockWaiters(o.post, p.lock)
    ensures |o.post.ready| <= |s.ready|
    ensures SchedulingFrame(s, o.post)
    ensures forall k :: LockWaiters(s, k) <= LockWaiters(o.post, k)
    decreases |s.ready|, 2
  {
    match p
    case Start => Outcome(Resumed(s.current, p), s)
    case InYield => Outcome(Resumed(s.current, p), s)
    case InLock(l) => Outcome(Resumed(s.current, p), s.(owner := s.owner[l := s.current]))
    case InWait(l, _) =>
      var o := Acquire(s, l);
      assert (LockWaiters(s, l) + [s.current])[|LockWaiters(s, l)|] == s.current;
      if o.control.Returned? then Outcome(Resumed(s.current, p), o.post) else o
  }

  /** The body of `thread_lock` after its initialization test (thread.cc:107-127),
      run by the current thread. */
  function Acquire(s: State, l: LockId): (o: Outcome)
    requires s.running
    ensures OwnerOf(s, l) == s.current ==> o == Outcome(Returned(-1), s)
    ensures OwnerOf(s, l) != s.current && OwnerOf(s, l) == Null ==>
              && o.control == Returned(0)
              && o.post == s.(owner := s.owner[l := s.current])
    ensures OwnerOf(s, l) != s.current && OwnerOf(s, l) != Null ==>
              && !o.control.Returned?
              && LockWaiters(s, l) + [s.current] <= LockWaiters(o.post, l)
    ensures o.control.Returned? ==> o.post.running && o.post.current == s.current
    ensures o.control.Exited? <==> !o.post.running
    ensures o.control.Resumed? ==> o.post.current == o.control.thread
    ensures |o.post.ready| <= |s.ready|
    ensures SchedulingFrame(s, o.post)
    ensures forall k :: LockWaiters(s, k) <= LockWaiters(o.post, k)
    decreases |s.ready|, 1
  {
    if OwnerOf(s, l) == s.current then Outcome(Returned(-1), s)
    else if OwnerOf(s, l) == Null then Outcome(Returned(0), s.(owner := s.owner[l := s.current]))
    else
      var p := Park(s, LockQ(l), InLock(l));
      var o := Dispatch(p);
      ParkedWaitersStay(s, l, p, o.post);
      o
  }

  /** Whatever only extends the waiter FIFOs of a state in which the caller
      has joined lock `l`'s FIFO extends those of the state before. */
  lemma ParkedWaitersStay(s: State, l: LockId, p: State, r: State)
    requires s.running && p == Park(s, LockQ(l), InLock(l))
    requires forall k :: LockWaiters(p, k) <= LockWaiters(r, k)
    ensures LockWaiters(s, l) + [s.current] <= LockWaiters(r, l)
    ensures forall k :: LockWaiters(s, k) <= LockWaiters(r, k)
  {
    forall k ensures LockWaiters(s, k) <= LockWaiters(p, k) {
      if k == l {
        assert Queue(p, LockQ(k)) == Queue(s, LockQ(k)) + [s.current];
      } else {
        assert Queue(p, LockQ(k)) == Queue(s, LockQ(k));
      }
    }
  }

  /** `thread_libinit` (thread.cc:30-59). `allocFails` stands for `new` throwing
      `bad_alloc`; the flag is already set by then. On success the first thread
      starts at once and the call never returns to its caller. */
  function ThreadLibinit(s: State, allocFails: bool): (o: Outcome)
    requires !s.initialized ==> !s.running
    ensures s.initialized ==> o == Outcome(Returned(-1), s)
    ensures !s.initialized && allocFails ==> o == Outcome(Returned(-1), s.(initialized := true))
    ensures !s.initialized && !allocFails ==>
              && o.control == Resumed(s.nextId, Start)
              && o.post.initialized && o.post.running && o.post.current == s.nextId
              && o.post.nextId > s.nextId
              && (forall y :: y != Running ==> Queue(o.post, y) == Queue(s, y))
  {
    if s.initialized then Outcome(Returned(-1), s)
    else if allocFails then Outcome(Returned(-1), s.(initialized := true))
    else
      var t := s.nextId;
      Outcome(Resumed(t, Start), s.(initialized := true, current := t, running := true, nextId := t + 1))
  }

  /** `thread_create` (thread.cc:61-85): a fresh thread joins the tail of the
      ready FIFO and does not run yet. */
  function ThreadCreate(s: State, allocFails: bool): (o: Outcome)
    ensures !s.initialized || allocFails ==> o == Outcome(Returned(-1), s)
    ensures s.initialized && !allocFails ==>
              && o.control == Returned(0)
              && o.post.ready == s.ready + [s.nextId]
              && o.post.nextId > s.nextId
              && PendingOf(o.post, s.nextId) == Start
              && o.post.resume == s.resume[s.nextId := Start]
              && o.post.initialized == s.initialized && o.post.running == s.running
              && (forall y :: y != ReadyQ ==> Queue(o.post, y) == Queue(s, y))
              && o.post.current == s.current && o.post.owner == s.owner
              && o.post.freed == s.freed
  {
    if !s.initialized || allocFails then Outcome(Returned(-1), s)
    else
      var t := s.nextId;
      Outcome(Returned(0), s.(ready := s.ready + [t], nextId := t + 1, resume := s.resume[t := Start]))
  }

  /** `thread_yield` (thread.cc:86-97): the caller goes to the tail of the ready
      FIFO and the head is dispatched. */
  function ThreadYield(s: State): (o: Outcome)
    requires s.initialized ==> s.running
    ensures !s.initialized ==> o == Outcome(Returned(-1), s)
    ensures s.initialized ==> !o.control.Returned?
    ensures s.initialized ==> SchedulingFrame(s, o.post)
  {
    if !s.initialized then Outcome(Returned(-1), s)
    else Dispatch(Park(s, ReadyQ, InYield))
  }

  /** `thread_lock` (thread.cc:98-128). */
  function ThreadLock(s: State, l: LockId): (o: Outcome)
    requires s.initialized ==> s.running
    ensures !s.initialized ==> o == Outcome(Returned(-1), s)
    ensures s.initialized && OwnerOf(s, l) == s.current ==> o == Outcome(Returned(-1), s)
    ensures s.initialized && OwnerOf(s, l) != s.current && OwnerOf(s, l) == Null ==>
              && o.control == Returned(0)
              && o.post == s.(owner := s.owner[l := s.current])
              && OwnerOf(o.post, l) == s.current
              && (forall k :: k != l ==> OwnerOf(o.post, k) == OwnerOf(s, k))
              && (forall y :: Queue(o.post, y) == Queue(s, y))
    ensures s.initialized && OwnerOf(s, l) != s.current && OwnerOf(s, l) != Null ==>
              && !o.control.Returned?
              && LockWaiters(s, l) + [s.current] <= LockWaiters(o.post, l)
  {
    if !s.initialized then Outcome(Returned(-1), s)
    else Acquire(s, l)
  }

  /** `thread_unlock` (thread.cc:130-158). Ownership is cleared, not handed over:
      the woken waiter only claims the lock when it is dispatched. */
  function ThreadUnlock(s: State, l: LockId): (o: Outcome)
    ensures !s.initialized || l !in s.owner || s.owner[l] != s.current <==> o.control == Returned(-1)
    ensures o.control == Returned(-1) ==> o.post == s
    ensures o.control != Returned(-1) ==>
              && o.control == Returned(0)
              && OwnerOf(o.post, l) == Null
              && (forall k :: k != l ==> OwnerOf(o.post, k) == OwnerOf(s, k))
              && o.post.ready == s.ready + LockWaiters(s, l)[..if LockWaiters(s, l) == [] then 0 else 1]
              && LockWaiters(o.post, l) == LockWaiters(s, l)[if LockWaiters(s, l) == [] then 0 else 1..]
              && (forall y :: y != ReadyQ && y != LockQ(l) ==> Queue(o.post, y) == Queue(s, y))
              && o.post.resume == s.resume
              && o.post.initialized == s.initialized && o.post.freed == s.freed && o.post.nextId == s.nextId
  {
    if !s.initialized || l !in s.owner || s.owner[l] != s.current then Outcome(Returned(-1), s)
    else
      var s1 := s.(owner := s.owner[l := Null]);
      if LockWaiters(s1, l) == [] then Outcome(Returned(0), s1)
      else Outcome(Returned(0), Transfer(s1, LockQ(l), ReadyQ))
  }

  /** The release at the start of `thread_wait` (thread.cc:170-177): ownership
      passes at once to the head of the lock's waiter FIFO, which becomes ready,
      or is cleared. Whether the caller owned the lock is not checked. */
  function Release(s: State, l: LockId): (r: State)
    ensures LockWaiters(s, l) == [] ==> r == s.(owner := s.owner[l := Null])
    ensures LockWaiters(s, l) != [] ==>
              && OwnerOf(r, l) == LockWaiters(s, l)[0]
              && r.ready == s.ready + [LockWaiters(s, l)[0]]
              && LockWaiters(r, l) == LockWaiters(s, l)[1..]
              && (forall y :: y != ReadyQ && y != LockQ(l) ==> Queue(r, y) == Queue(s, y))
              && r.resume == s.resume
    ensures forall k :: k != l ==> OwnerOf(r, k) == OwnerOf(s, k)
    ensures r.running == s.running && r.current == s.current
    ensures SchedulingFrame(s, r)
  {
    var waiters := LockWaiters(s, l);
    if waiters != [] then Transfer(s, LockQ(l), ReadyQ).(owner := s.owner[l := waiters[0]])
    else s.(owner := s.owner[l := Null])
  }

  /** `thread_wait` (thread.cc:160-192): release the lock, wait on the
      condition's FIFO, and dispatch. The caller never keeps control. */
  function ThreadWait(s: State, l: LockId, c: CondId): (o: Outcome)
    requires s.initialized ==> s.running
    ensures !s.initialized ==> o == Outcome(Returned(-1), s)
    ensures s.initialized ==> !o.control.Returned?
    ensures s.initialized ==> Blocked(o.post, l, c) == Blocked(s, l, c) + [s.current]
  {
    if !s.initialized then Outcome(Returned(-1), s)
    else Dispatch(Park(Release(s, l), BlockQ(l, c), InWait(l, c)))
  }

  /** `thread_signal` (thread.cc:193-214): at most the head of the condition's
      FIFO becomes ready; the lock table is not touched. */
  function ThreadSignal(s: State, l: LockId, c: CondId): (o: Outcome)
    ensures !s.initialized ==> o == Outcome(Returned(-1), s)
    ensures s.initialized ==> o.control == Returned(0)
    ensures s.initialized && Blocked(s, l, c) == [] ==> o.post == s
    ensures s.initialized && Blocked(s, l, c) != [] ==>
              && o.post.ready == s.ready + [Blocked(s, l, c)[0]]
              && Blocked(o.post, l, c) == Blocked(s, l, c)[1..]
              && (forall y :: y != ReadyQ && y != BlockQ(l, c) ==> Queue(o.post, y) == Queue(s, y))
              && o.post.owner == s.owner && o.post.resume == s.resume
              && o.post.current == s.current && o.post.running == s.running
              && o.post.initialized == s.initialized && o.post.freed == s.freed && o.post.nextId == s.nextId
  {
    if !s.initialized then Outcome(Returned(-1), s)
    else if Blocked(s, l, c) == [] then Outcome(Returned(0), s)
    else Outcome(Returned(0), Transfer(s, BlockQ(l, c), ReadyQ))
  }

  /** The loop of `thread_broadcast` (thread.cc:225-234), one waiter per round. */
  function WakeAll(s: State, l: LockId, c: CondId): (r: State)
    ensures r.ready == s.ready + Blocked(s, l, c)
    ensures Blocked(r, l, c) == []
    ensures forall y :: y != ReadyQ && y != BlockQ(l, c) ==> Queue(r, y) == Queue(s, y)
    ensures r.owner == s.owner && r.resume == s.resume && r.freed == s.freed && r.nextId == s.nextId
    ensures r.initialized == s.initialized && r.current == s.current && r.running == s.running
    decreases |Blocked(s, l, c)|
  {
    if Blocked(s, l, c) == [] then s
    else WakeAll(Transfer(s, BlockQ(l, c), ReadyQ), l, c)
  }

  /** `thread_broadcast` (thread.cc:215-237): every waiter on the condition
      becomes ready, in the order it waited. */
  function ThreadBroadcast(s: State, l: LockId, c: CondId): (o: Outcome)
    ensures !s.initialized ==> o == Outcome(Returned(-1), s)
    ensures s.initialized ==>
              && o.control == Returned(0)
              && o.post.ready == s.ready + Blocked(s, l, c)
              && Blocked(o.post, l, c) == []
              && (forall y :: y != ReadyQ && y != BlockQ(l, c) ==> Queue(o.post, y) == Queue(s, y))
              && o.post.owner == s.owner && o.post.resume == s.resume
              && o.post.initialized == s.initialized && o.post.freed == s.freed && o.post.nextId == s.nextId
              && o.post.current == s.current && o.post.running == s.running
  {
    if !s.initialized then Outcome(Returned(-1), s)
    else Outcome(Returned(0), WakeAll(s, l, c))
  }

  /** The deletion loop of `run_thread` (thread.cc:265-278): every record
      waiting in the reclaim FIFO is deleted, oldest first. */
  function Reap(s: State): (r: State)
    ensures r.reclaim == []
    ensures r.freed == s.freed + s.reclaim
    ensures r == s.(reclaim := [], freed := s.freed + s.reclaim)
    ensures forall y :: y != ReclaimQ ==> Queue(r, y) == Queue(s, y)
    ensures r.owner == s.owner && r.resume == s.resume && r.nextId == s.nextId
    ensures r.initialized == s.initialized && r.current == s.current && r.running == s.running
    decreases |s.reclaim|
  {
    if s.reclaim == [] then s
    else Reap(s.(reclaim := s.reclaim[1..], freed := s.freed + [s.reclaim[0]]))
  }

  /** What `run_thread` does once the thread's start function has returned
      (thread.cc:263-281): delete the records queued for deletion, queue the
      finishing thread's own record, and dispatch. */
  function Terminate(s: State): (o: Outcome)
    requires s.running
    ensures o.post.freed == s.freed + s.reclaim
    ensures o.post.reclaim == [s.current]
    ensures !o.control.Returned?
  {
    Dispatch(Transfer(Reap(s), Running, ReclaimQ))
  }
}
