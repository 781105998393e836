/**
  The structural invariant of the runtime: every thread is in at most one
  place — running, or in exactly one FIFO, at most once — no queued thread has
  been deleted, no record is deleted twice, ids are never reused, and a lock's
  owner never waits in that lock's own FIFO. Every transition preserves it.
 */
module Invariant {
  import opened ThreadState
  import opened Runtime

  ghost predicate Placement(s: State) {
    && (forall x :: NoDup(Queue(s, x)))
    && (forall x, t {:trigger t in Queue(s, x)} :: t in Queue(s, x) ==> 1 <= t < s.nextId && t !in s.freed)
    && (forall a, b, t {:trigger t in Queue(s, a), t in Queue(s, b)} ::
          t in Queue(s, a) && t in Queue(s, b) ==> a == b)
    && NoDup(s.freed)
    && (forall t :: t in s.freed ==> 1 <= t < s.nextId)
  }

  /** The running thread has no saved continuation, and a thread waiting on
      a lock or a condition is suspended inside the matching call. */
  ghost predicate Tags(s: State) {
    && (forall t :: t in s.resume ==> t < s.nextId)
    && (s.running ==> s.current !in s.resume)
    && (forall l, t {:trigger t in LockWaiters(s, l)} ::
          t in LockWaiters(s, l) ==> PendingOf(s, t) == InLock(l))
    && (forall l, c, t {:trigger t in Blocked(s, l, c)} ::
          t in Blocked(s, l, c) ==> PendingOf(s, t) == InWait(l, c))
  }

  /** Owners are real ids, and a lock's owner never waits in its own FIFO. */
  ghost predicate Owners(s: State) {
    && (forall l :: l in s.owner ==> s.owner[l] < s.nextId)
    && (forall l :: OwnerOf(s, l) !in LockWaiters(s, l))
  }

  ghost predicate Valid(s: State) {
    && s.nextId >= 1
    && (!s.initialized ==> s == Init())
    && Placement(s)
    && Tags(s)
    && Owners(s)
  }

  /** `r` has the same threads in the same places as `s`. */
  predicate SameSlots(s: State, r: State) {
    && r.running == s.running && r.current == s.current
    && r.ready == s.ready && r.reclaim == s.reclaim
    && r.lockWaiters == s.lockWaiters && r.blocked == s.blocked
    && r.freed == s.freed && r.nextId == s.nextId
  }

  lemma SameSlotsKeepPlacement(s: State, r: State)
    requires Placement(s) && SameSlots(s, r)
    ensures Placement(r)
    ensures forall x :: Queue(r, x) == Queue(s, x)
  {
    assert forall x :: Queue(r, x) == Queue(s, x);
  }

  /** Tags survive any step that keeps the waiter tables and saved continuations. */
  lemma SameWaitersKeepTags(s: State, r: State)
    requires Tags(s)
    requires r.resume == s.resume && r.lockWaiters == s.lockWaiters && r.blocked == s.blocked
    requires r.nextId == s.nextId && r.running == s.running && r.current == s.current
    ensures Tags(r)
  {
    assert forall l :: LockWaiters(r, l) == LockWaiters(s, l);
    assert forall l, c :: Blocked(r, l, c) == Blocked(s, l, c);
  }

  /** Tags survive moving a thread into the ready or reclaim FIFO. */
  lemma TransferKeepsTags(s: State, from: Slot, to: Slot)
    requires Tags(s)
    requires from != to && Queue(s, from) != []
    requires to == ReadyQ || to == ReclaimQ
    ensures Tags(Transfer(s, from, to))
  {
    var r := Transfer(s, from, to);
    forall l, t | t in LockWaiters(r, l) ensures PendingOf(r, t) == InLock(l) {
      assert t in Queue(r, LockQ(l));
      if from == LockQ(l) {
        assert t in Queue(s, from)[1..];
      }
      assert t in Queue(s, LockQ(l));
    }
    forall l, c, t | t in Blocked(r, l, c) ensures PendingOf(r, t) == InWait(l, c) {
      assert t in Queue(r, BlockQ(l, c));
      if from == BlockQ(l, c) {
        assert t in Queue(s, from)[1..];
      }
      assert t in Queue(s, BlockQ(l, c));
    }
    if r.running {
      assert from != Running;
      assert Queue(r, Running) == Queue(s, Running);
    }
  }

  /** The running thread takes lock `l` (thread.cc:115, 124). */
  lemma ClaimKeepsValid(s: State, l: LockId)
    requires Valid(s) && s.running
    ensures Valid(s.(owner := s.owner[l := s.current]))
  {
    var r := s.(owner := s.owner[l := s.current]);
    SameSlotsKeepPlacement(s, r);
    SameWaitersKeepTags(s, r);
    assert s.current in Queue(s, Running);
    forall k ensures OwnerOf(r, k) !in LockWaiters(r, k) {
      assert LockWaiters(r, k) == LockWaiters(s, k) == Queue(s, LockQ(k));
      assert s.current !in Queue(s, LockQ(k));
    }
  }

  lemma NoDupTail(q: seq<Tid>)
    requires NoDup(q) && q != []
    ensures NoDup(q[1..]) && q[0] !in q[1..]
  {
    forall k | 0 <= k < |q[1..]| ensures q[1..][k] != q[0] {
      assert q[1..][k] == q[k + 1];
    }
  }

  lemma NoDupAppend(q: seq<Tid>, t: Tid)
    requires NoDup(q) && t !in q
    ensures NoDup(q + [t])
  {
    var r := q + [t];
    forall i, j | 0 <= i < j < |r| ensures r[i] != r[j] {
      if j == |q| {
        assert r[i] == q[i];
      }
    }
  }

  lemma NoDupConcat(p: seq<Tid>, q: seq<Tid>)
    requires NoDup(p) && NoDup(q)
    requires forall t :: t in p ==> t !in q
    ensures NoDup(p + q)
  {
    var r := p + q;
    forall i, j | 0 <= i < j < |r| ensures r[i] != r[j] {
      if i < |p| && j >= |p| {
        assert r[i] in p && r[j] == q[j - |p|];
      }
    }
  }

  /** Moving the head of one slot to the tail of another keeps every thread
      in one place. */
  lemma {:induction false} TransferKeepsPlacement(s: State, from: Slot, to: Slot)
    requires Placement(s)
    requires from != to && Queue(s, from) != []
    requires to == Running ==> Queue(s, Running) == []
    ensures Placement(Transfer(s, from, to))
  {
    var r := Transfer(s, from, to);
    var h := Queue(s, from)[0];
    assert h in Queue(s, from);
    TransferMembers(s, from, to);
    TransferNoDup(s, from, to);
    forall x, t | t in Queue(r, x) ensures 1 <= t < r.nextId && t !in r.freed {
      if t !in Queue(s, x) {
        assert t == h;
      }
    }
    forall a, b, t | t in Queue(r, a) && t in Queue(r, b) ensures a == b {
    }
  }

  /** After a queue move a thread is where it was, or it is the moved head and
      sits in the target slot only. */
  lemma {:induction false} TransferMembers(s: State, from: Slot, to: Slot)
    requires NoDup(Queue(s, from))
    requires from != to && Queue(s, from) != []
    requires to == Running ==> Queue(s, Running) == []
    ensures var r := Transfer(s, from, to);
            var h := Queue(s, from)[0];
              forall x, t {:trigger t in Queue(r, x)} :: t in Queue(r, x) ==>
                && (t in Queue(s, x) || (x == to && t == h))
                && (x == from ==> t != h)
  {
    var r := Transfer(s, from, to);
    var h := Queue(s, from)[0];
    NoDupTail(Queue(s, from));
    forall x, t | t in Queue(r, x)
      ensures t in Queue(s, x) || (x == to && t == h)
      ensures x == from ==> t != h
    {
      if x == from {
        assert t in Queue(s, from)[1..];
      } else if x == to {
        assert t in Queue(s, to) + [h];
      }
    }
  }

  lemma {:induction false} TransferNoDup(s: State, from: Slot, to: Slot)
    requires Placement(s)
    requires from != to && Queue(s, from) != []
    requires to == Running ==> Queue(s, Running) == []
    ensures forall x :: NoDup(Queue(Transfer(s, from, to), x))
  {
    var r := Transfer(s, from, to);
    var h := Queue(s, from)[0];
    assert h in Queue(s, from);
    NoDupTail(Queue(s, from));
    assert h !in Queue(s, to);
    forall x ensures NoDup(Queue(r, x)) {
      if x == to {
        NoDupAppend(Queue(s, to), h);
      } else if x == from {
      } else {
        assert Queue(r, x) == Queue(s, x);
      }
    }
  }

  /** A fresh id placed at the tail of one slot keeps every thread in one place. */
  lemma {:induction false} AddFreshKeepsPlacement(s: State, r: State, x: Slot)
    requires Placement(s)
    requires r.nextId > s.nextId >= 1 && r.freed == s.freed
    requires Queue(r, x) == Queue(s, x) + [s.nextId]
    requires forall y :: y != x ==> Queue(r, y) == Queue(s, y)
    ensures Placement(r)
  {
    var n := s.nextId;
    forall y, t | t in Queue(r, y)
      ensures (t in Queue(s, y) && t < n) || (y == x && t == n)
    {
      if y == x {
        assert t in Queue(s, x) + [n];
        if t != n {
          assert t in Queue(s, x);
        }
      } else {
        assert t in Queue(s, y);
      }
    }
    assert n !in Queue(s, x);
    NoDupAppend(Queue(s, x), n);
    forall y ensures NoDup(Queue(r, y)) {
      if y != x {
        assert Queue(r, y) == Queue(s, y);
      }
    }
    forall a, b, t | t in Queue(r, a) && t in Queue(r, b) ensures a == b {
      if t != n {
        assert t in Queue(s, a) && t in Queue(s, b);
      }
    }
  }

  /** Deleting every record of the reclaim FIFO keeps every thread in one place. */
  lemma {:induction false} ReapKeepsPlacement(s: State)
    requires Placement(s)
    ensures Placement(Reap(s))
  {
    var r := Reap(s);
    forall t | t in s.reclaim ensures t !in s.freed {
      assert t in Queue(s, ReclaimQ);
    }
    assert NoDup(Queue(s, ReclaimQ));
    NoDupConcat(s.freed, s.reclaim);
    forall x, t | t in Queue(r, x) ensures 1 <= t < r.nextId && t !in r.freed {
      assert x != ReclaimQ;
      assert t in Queue(s, x);
      assert t !in Queue(s, ReclaimQ);
    }
    forall t | t in r.freed ensures 1 <= t < r.nextId {
      if t in s.reclaim {
        assert t in Queue(s, ReclaimQ);
      }
    }
    forall x ensures NoDup(Queue(r, x)) {
      if x != ReclaimQ {
        assert Queue(r, x) == Queue(s, x);
      }
    }
    forall a, b, t | t in Queue(r, a) && t in Queue(r, b) ensures a == b {
      assert t in Queue(s, a) && t in Queue(s, b);
    }
  }

  lemma {:induction false} ParkKeepsTags(s: State, x: Slot, p: Pending)
    requires Placement(s) && Tags(s) && s.running && x != Running
    requires x.LockQ? ==> p == InLock(x.lock)
    requires x.BlockQ? ==> p == InWait(x.lock, x.cond)
    ensures Tags(Park(s, x, p))
  {
    assert s.current in Queue(s, Running);
    ParkKeepsLockTags(s, x, p);
    ParkKeepsWaitTags(s, x, p);
  }

  lemma {:induction false} ParkKeepsLockTags(s: State, x: Slot, p: Pending)
    requires Placement(s) && Tags(s) && s.running && x != Running
    requires x.LockQ? ==> p == InLock(x.lock)
    ensures var r := Park(s, x, p);
              forall l, t {:trigger t in LockWaiters(r, l)} ::
                t in LockWaiters(r, l) ==> PendingOf(r, t) == InLock(l)
  {
    var r := Park(s, x, p);
    var me := s.current;
    assert me in Queue(s, Running);
    forall l, t | t in LockWaiters(r, l) ensures PendingOf(r, t) == InLock(l) {
      assert t in Queue(r, LockQ(l));
      if t != me {
        if x == LockQ(l) {
          assert t in Queue(s, x) + [me];
        }
        assert t in Queue(s, LockQ(l));
      }
    }
  }

  lemma {:induction false} ParkKeepsWaitTags(s: State, x: Slot, p: Pending)
    requires Placement(s) && Tags(s) && s.running && x != Running
    requires x.BlockQ? ==> p == InWait(x.lock, x.cond)
    ensures var r := Park(s, x, p);
              forall l, c, t {:trigger t in Blocked(r, l, c)} ::
                t in Blocked(r, l, c) ==> PendingOf(r, t) == InWait(l, c)
  {
    var r := Park(s, x, p);
    var me := s.current;
    assert me in Queue(s, Running);
    forall l, c, t | t in Blocked(r, l, c) ensures PendingOf(r, t) == InWait(l, c) {
      assert t in Queue(r, BlockQ(l, c));
      if t != me {
        if x == BlockQ(l, c) {
          assert t in Queue(s, x) + [me];
        }
        assert t in Queue(s, BlockQ(l, c));
      }
    }
  }

  /** The running thread saves its context and waits in slot `x`; a thread
      never queues for a lock it owns (thread.cc:108-112 rules that out). */
  lemma {:induction false} ParkKeepsValid(s: State, x: Slot, p: Pending)
    requires Valid(s) && s.running && x != Running
    requires x.LockQ? ==> OwnerOf(s, x.lock) != s.current && p == InLock(x.lock)
    requires x.BlockQ? ==> p == InWait(x.lock, x.cond)
    ensures Valid(Park(s, x, p))
  {
    TransferKeepsPlacement(s, Running, x);
    var r := Park(s, x, p);
    ParkKeepsTags(s, x, p);
    assert s.current in Queue(s, Running);
    forall l ensures OwnerOf(r, l) !in LockWaiters(r, l) {
      if x == LockQ(l) {
        assert LockWaiters(r, l) == LockWaiters(s, l) + [s.current];
      } else {
        assert Queue(r, LockQ(l)) == Queue(s, LockQ(l));
      }
    }
  }

  /** `run_ready_thread` and the continuations it resumes keep the invariant. */
  lemma {:induction false} DispatchKeepsValid(s: State)
    requires Valid(s) && !s.running
    ensures Valid(Dispatch(s).post)
    decreases |s.ready|, 0
  {
    if s.ready != [] {
      var t := s.ready[0];
      assert t in Queue(s, ReadyQ);
      var s1 := Transfer(s, ReadyQ, Running);
      TransferKeepsPlacement(s, ReadyQ, Running);
      assert Queue(s1, Running) == [t];
      assert s1.running && s1.current == t;
      var s2 := s1.(resume := s1.resume - {t});
      SameSlotsKeepPlacement(s1, s2);
      assert s.initialized;
      forall l, u | u in LockWaiters(s2, l) ensures PendingOf(s2, u) == InLock(l) {
        assert u in Queue(s, LockQ(l));
      }
      forall l, c, u | u in Blocked(s2, l, c) ensures PendingOf(s2, u) == InWait(l, c) {
        assert u in Queue(s, BlockQ(l, c));
      }
      forall l ensures OwnerOf(s2, l) !in LockWaiters(s2, l) {
        assert Queue(s2, LockQ(l)) == Queue(s, LockQ(l));
      }
      assert Valid(s2);
      ResumeKeepsValid(s2, PendingOf(s, t));
    }
  }

  lemma {:induction false} ResumeKeepsValid(s: State, p: Pending)
    requires Valid(s) && s.running
    ensures Valid(Resume(s, p).post)
    decreases |s.ready|, 2
  {
    match p
    case Start =>
    case InYield =>
    case InLock(l) =>
      ClaimKeepsValid(s, l);
    case InWait(l, _) =>
      AcquireKeepsValid(s, l);
  }

  lemma {:induction false} AcquireKeepsValid(s: State, l: LockId)
    requires Valid(s) && s.running
    ensures Valid(Acquire(s, l).post)
    decreases |s.ready|, 1
  {
    if OwnerOf(s, l) == s.current {
    } else if OwnerOf(s, l) == Null {
      ClaimKeepsValid(s, l);
    } else {
      ParkKeepsValid(s, LockQ(l), InLock(l));
      DispatchKeepsValid(Park(s, LockQ(l), InLock(l)));
    }
  }

  lemma LibinitKeepsValid(s: State, allocFails: bool)
    requires Valid(s)
    ensures Valid(ThreadLibinit(s, allocFails).post)
  {
    if !s.initialized && !allocFails {
      var r := ThreadLibinit(s, allocFails).post;
      assert Queue(s, Running) == [];
      AddFreshKeepsPlacement(s, r, Running);
      forall l ensures OwnerOf(r, l) !in LockWaiters(r, l) {
        assert Queue(r, LockQ(l)) == Queue(s, LockQ(l));
      }
    }
  }

  lemma CreateKeepsValid(s: State, allocFails: bool)
    requires Valid(s)
    ensures Valid(ThreadCreate(s, allocFails).post)
  {
    if s.initialized && !allocFails {
      var r := ThreadCreate(s, allocFails).post;
      AddFreshKeepsPlacement(s, r, ReadyQ);
      if s.running {
        assert s.current in Queue(s, Running);
      }
      forall l, u | u in LockWaiters(r, l) ensures PendingOf(r, u) == InLock(l) {
        assert u in Queue(s, LockQ(l));
      }
      forall l, c, u | u in Blocked(r, l, c) ensures PendingOf(r, u) == InWait(l, c) {
        assert u in Queue(s, BlockQ(l, c));
      }
      forall l ensures OwnerOf(r, l) !in LockWaiters(r, l) {
        assert Queue(r, LockQ(l)) == Queue(s, LockQ(l));
      }
    }
  }

  lemma YieldKeepsValid(s: State)
    requires Valid(s) && (s.initialized ==> s.running)
    ensures Valid(ThreadYield(s).post)
  {
    if s.initialized {
      ParkKeepsValid(s, ReadyQ, InYield);
      DispatchKeepsValid(Park(s, ReadyQ, InYield));
    }
  }

  lemma LockKeepsValid(s: State, l: LockId)
    requires Valid(s) && (s.initialized ==> s.running)
    ensures Valid(ThreadLock(s, l).post)
  {
    if s.initialized {
      AcquireKeepsValid(s, l);
    }
  }

  /** Null is never queued: ids start at 1. */
  lemma NullNeverQueued(s: State, x: Slot)
    requires Placement(s)
    ensures Null !in Queue(s, x)
  {
  }

  lemma UnlockKeepsValid(s: State, l: LockId)
    requires Valid(s)
    ensures Valid(ThreadUnlock(s, l).post)
  {
    var o := ThreadUnlock(s, l);
    if o.control != Returned(-1) {
      var s1 := s.(owner := s.owner[l := Null]);
      SameSlotsKeepPlacement(s, s1);
      SameWaitersKeepTags(s, s1);
      NullNeverQueued(s, LockQ(l));
      if LockWaiters(s1, l) != [] {
        assert Queue(s1, LockQ(l)) != [];
        TransferKeepsPlacement(s1, LockQ(l), ReadyQ);
        TransferKeepsTags(s1, LockQ(l), ReadyQ);
        var r := o.post;
        assert r == Transfer(s1, LockQ(l), ReadyQ);
        forall k ensures OwnerOf(r, k) !in LockWaiters(r, k) {
          if k != l {
            assert Queue(r, LockQ(k)) == Queue(s, LockQ(k));
          }
        }
      }
    }
  }

  lemma ReleaseKeepsValid(s: State, l: LockId)
    requires Valid(s) && s.initialized
    ensures Valid(Release(s, l))
  {
    var r := Release(s, l);
    var waiters := LockWaiters(s, l);
    if waiters != [] {
      assert Queue(s, LockQ(l)) != [];
      TransferKeepsPlacement(s, LockQ(l), ReadyQ);
      var s1 := Transfer(s, LockQ(l), ReadyQ);
      TransferKeepsTags(s, LockQ(l), ReadyQ);
      assert r == s1.(owner := s.owner[l := waiters[0]]);
      SameSlotsKeepPlacement(s1, r);
      SameWaitersKeepTags(s1, r);
      assert waiters[0] in Queue(s, LockQ(l));
      NoDupTail(waiters);
      forall k ensures OwnerOf(r, k) !in LockWaiters(r, k) {
        if k != l {
          assert Queue(r, LockQ(k)) == Queue(s, LockQ(k));
        } else {
          assert LockWaiters(r, l) == waiters[1..];
        }
      }
    } else {
      SameSlotsKeepPlacement(s, r);
      SameWaitersKeepTags(s, r);
      NullNeverQueued(s, LockQ(l));
    }
  }

  lemma WaitKeepsValid(s: State, l: LockId, c: CondId)
    requires Valid(s) && (s.initialized ==> s.running)
    ensures Valid(ThreadWait(s, l, c).post)
  {
    if s.initialized {
      ReleaseKeepsValid(s, l);
      ParkKeepsValid(Release(s, l), BlockQ(l, c), InWait(l, c));
      DispatchKeepsValid(Park(Release(s, l), BlockQ(l, c), InWait(l, c)));
    }
  }

  /** One waiter moves from a condition FIFO to the ready FIFO. */
  lemma WakeOneKeepsValid(s: State, l: LockId, c: CondId)
    requires Valid(s) && Blocked(s, l, c) != []
    ensures Valid(Transfer(s, BlockQ(l, c), ReadyQ))
  {
    assert Queue(s, BlockQ(l, c)) != [];
    TransferKeepsPlacement(s, BlockQ(l, c), ReadyQ);
    TransferKeepsTags(s, BlockQ(l, c), ReadyQ);
    var r := Transfer(s, BlockQ(l, c), ReadyQ);
    forall k ensures OwnerOf(r, k) !in LockWaiters(r, k) {
      assert Queue(r, LockQ(k)) == Queue(s, LockQ(k));
    }
  }

  lemma SignalKeepsValid(s: State, l: LockId, c: CondId)
    requires Valid(s)
    ensures Valid(ThreadSignal(s, l, c).post)
  {
    if s.initialized && Blocked(s, l, c) != [] {
      WakeOneKeepsValid(s, l, c);
    }
  }

  lemma {:induction false} WakeAllKeepsValid(s: State, l: LockId, c: CondId)
    requires Valid(s)
    ensures Valid(WakeAll(s, l, c))
    decreases |Blocked(s, l, c)|
  {
    if Blocked(s, l, c) != [] {
      WakeOneKeepsValid(s, l, c);
      var r := Transfer(s, BlockQ(l, c), ReadyQ);
      assert Queue(r, BlockQ(l, c)) == Queue(s, BlockQ(l, c))[1..];
      WakeAllKeepsValid(r, l, c);
    }
  }

  lemma BroadcastKeepsValid(s: State, l: LockId, c: CondId)
    requires Valid(s)
    ensures Valid(ThreadBroadcast(s, l, c).post)
  {
    if s.initialized {
      WakeAllKeepsValid(s, l, c);
    }
  }

  lemma TerminateKeepsValid(s: State)
    requires Valid(s) && s.running
    ensures Valid(Terminate(s).post)
  {
    ReapKeepsPlacement(s);
    var s1 := Reap(s);
    SameWaitersKeepTags(s, s1);
    assert Valid(s1) by {
      forall k ensures OwnerOf(s1, k) !in LockWaiters(s1, k) {
        assert Queue(s1, LockQ(k)) == Queue(s, LockQ(k));
      }
    }
    assert Queue(s1, Running) != [];
    TransferKeepsPlacement(s1, Running, ReclaimQ);
    TransferKeepsTags(s1, Running, ReclaimQ);
    var s2 := Transfer(s1, Running, ReclaimQ);
    assert Valid(s2) by {
      forall k ensures OwnerOf(s2, k) !in LockWaiters(s2, k) {
        assert Queue(s2, LockQ(k)) == Queue(s1, LockQ(k));
      }
    }
    DispatchKeepsValid(s2);
  }
}
