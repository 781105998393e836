/**
  Whole runs of a program that uses the library. A run is a sequence of calls,
  each made by whoever has control: the process's main code before
  `thread_libinit`, the current thread afterwards. Beside the runtime state a
  run tracks which threads have been told they hold each lock — a thread
  holds a lock from the moment its `thread_lock` (or the `thread_lock` that
  ends its `thread_wait`) returns, until it unlocks or waits on it. That
  observer shows that the library does not give mutual exclusion.
 */
module Traces {
  import opened ThreadState
  import opened Runtime
  import opened Invariant
  import opened Properties

  /** The public calls, and `Finish` for a thread whose start function returns. */
  datatype Op =
    | Libinit(allocFails: bool)
    | Create(allocFails: bool)
    | Yield
    | Lock(lock: LockId)
    | Unlock(lock: LockId)
    | Wait(lock: LockId, cond: CondId)
    | Signal(lock: LockId, cond: CondId)
    | Broadcast(lock: LockId, cond: CondId)
    | Finish

  /** Someone can make the call: a thread has control exactly while the library
      is initialized and has not exited, and only a thread can finish. */
  predicate Issuable(s: State, op: Op) {
    s.running == s.initialized && (op.Finish? ==> s.running)
  }

  function Apply(s: State, op: Op): (o: Outcome)
    requires Issuable(s, op)
    ensures !s.initialized && !op.Libinit? ==> o == Outcome(Returned(-1), s)
    ensures s.initialized && op.Libinit? ==> o == Outcome(Returned(-1), s)
  {
    match op
    case Libinit(a) => ThreadLibinit(s, a)
    case Create(a) => ThreadCreate(s, a)
    case Yield => ThreadYield(s)
    case Lock(l) => ThreadLock(s, l)
    case Unlock(l) => ThreadUnlock(s, l)
    case Wait(l, c) => ThreadWait(s, l, c)
    case Signal(l, c) => ThreadSignal(s, l, c)
    case Broadcast(l, c) => ThreadBroadcast(s, l, c)
    case Finish => Terminate(s)
  }

  datatype Sys = Sys(state: State, held: map<LockId, set<Tid>>)

  function Boot(): Sys {
    Sys(Init(), map[])
  }

  function Holders(h: map<LockId, set<Tid>>, l: LockId): set<Tid> {
    if l in h then h[l] else {}
  }

  /** The locks a call can concern: the one it names, and the one the resumed
      thread's pending call was for. */
  predicate Concerns(op: Op, o: Outcome, l: LockId) {
    || ((op.Lock? || op.Unlock? || op.Wait?) && op.lock == l)
    || (o.control.Resumed? && (o.control.call.InLock? || o.control.call.InWait?) && o.control.call.lock == l)
  }

  /** How one call changes who believes they hold each lock: the caller gains
      the lock when `thread_lock` returns 0 to it at once and gives it up with a
      successful `thread_unlock` or any `thread_wait`; a thread switched back in
      gains the lock its pending `thread_lock` or `thread_wait` was for. */
  function Observe(h: map<LockId, set<Tid>>, s: State, op: Op, o: Outcome): map<LockId, set<Tid>> {
    var h1 :=
      match op
      case Lock(l) => if o.control == Returned(0) then h[l := Holders(h, l) + {s.current}] else h
      case Unlock(l) => if o.control == Returned(0) then h[l := Holders(h, l) - {s.current}] else h
      case Wait(l, _) => if o.control != Returned(-1) then h[l := Holders(h, l) - {s.current}] else h
      case _ => h;
    match o.control
    case Resumed(t, InLock(l)) => h1[l := Holders(h1, l) + {t}]
    case Resumed(t, InWait(l, _)) => h1[l := Holders(h1, l) + {t}]
    case _ => h1
  }

  /** One call, if anyone can make it; otherwise nothing happens. */
  function Step(x: Sys, op: Op): Sys {
    if !Issuable(x.state, op) then x
    else
      var o := Apply(x.state, op);
      Sys(o.post, Observe(x.held, x.state, op, o))
  }

  /** A failed call changes nobody's holdings, and a call changes the holders
      only of the locks it concerns. */
  lemma ObserveFrame(h: map<LockId, set<Tid>>, s: State, op: Op, o: Outcome)
    ensures o.control == Returned(-1) ==> Observe(h, s, op, o) == h
    ensures forall l :: !Concerns(op, o, l) ==> Holders(Observe(h, s, op, o), l) == Holders(h, l)
  {
  }

  /** A failed call changes nobody's holdings, whatever it does to the state. */
  lemma StepFrame(x: Sys, op: Op)
    ensures Issuable(x.state, op) && Apply(x.state, op).control == Returned(-1) ==> Step(x, op).held == x.held
  {
    if Issuable(x.state, op) {
      ObserveFrame(x.held, x.state, op, Apply(x.state, op));
    }
  }

  /** A call someone can make moves the system to the call's result. */
  lemma StepOf(x: Sys, op: Op, o: Outcome)
    requires Issuable(x.state, op) && Apply(x.state, op) == o
    ensures Step(x, op) == Sys(o.post, Observe(x.held, x.state, op, o))
  {
  }

  function Run(x: Sys, ops: seq<Op>): Sys
    decreases |ops|
  {
    if ops == [] then x else Run(Step(x, ops[0]), ops[1..])
  }

  /** A run passes through any chain of snapshots that each call leads from one
      to the next. */
  lemma {:induction false} RunFollows(ops: seq<Op>, snap: nat -> Sys, i: nat)
    requires i <= |ops|
    requires forall k :: i <= k < |ops| ==> Step(snap(k), ops[k]) == snap(k + 1)
    ensures Run(snap(i), ops[i..]) == snap(|ops|)
    decreases |ops| - i
  {
    if i < |ops| {
      assert ops[i..][1..] == ops[i + 1..];
      RunFollows(ops, snap, i + 1);
    }
  }

  /** Every call made by whoever has control keeps the invariant. */
  lemma ApplyKeepsValid(s: State, op: Op)
    requires Valid(s) && Issuable(s, op)
    ensures Valid(Apply(s, op).post)
  {
    if op.Yield? || op.Lock? || op.Wait? {
      SuspendingCallKeepsValid(s, op);
    } else if op.Finish? {
      TerminateKeepsValid(s);
      assert Apply(s, op) == Terminate(s);
    } else {
      ReturningCallKeepsValid(s, op);
    }
  }

  /** The calls that can suspend their caller. */
  lemma SuspendingCallKeepsValid(s: State, op: Op)
    requires Valid(s) && Issuable(s, op)
    requires op.Yield? || op.Lock? || op.Wait?
    ensures Valid(Apply(s, op).post)
  {
    match op
    case Yield =>
      YieldKeepsValid(s);
      assert Apply(s, op) == ThreadYield(s);
    case Lock(l) =>
      LockKeepsValid(s, l);
      assert Apply(s, op) == ThreadLock(s, l);
    case Wait(l, c) =>
      WaitKeepsValid(s, l, c);
      assert Apply(s, op) == ThreadWait(s, l, c);
  }

  /** The calls that always return to their caller. */
  lemma ReturningCallKeepsValid(s: State, op: Op)
    requires Valid(s) && Issuable(s, op)
    requires !(op.Yield? || op.Lock? || op.Wait? || op.Finish?)
    ensures Valid(Apply(s, op).post)
  {
    match op
    case Libinit(a) => LibinitKeepsValid(s, a);
    case Create(a) => CreateKeepsValid(s, a);
    case Unlock(l) => UnlockKeepsValid(s, l);
    case Signal(l, c) => SignalKeepsValid(s, l, c);
    case Broadcast(l, c) => BroadcastKeepsValid(s, l, c);
  }

  lemma {:induction false} RunKeepsValid(x: Sys, ops: seq<Op>)
    requires Valid(x.state)
    ensures Valid(Run(x, ops).state)
    decreases |ops|
  {
    if ops != [] {
      if Issuable(x.state, ops[0]) {
        ApplyKeepsValid(x.state, ops[0]);
      }
      RunKeepsValid(Step(x, ops[0]), ops[1..]);
    }
  }

  /** In every reachable state no record has been deleted twice, and neither the
      running thread nor any queued thread has been deleted. */
  lemma ReachableNeverUsesFreed(ops: seq<Op>)
    ensures var s := Run(Boot(), ops).state;
              && NoDup(s.freed)
              && (s.running ==> s.current !in s.freed)
              && (forall x, t :: t in Queue(s, x) ==> t !in s.freed)
  {
    RunKeepsValid(Boot(), ops);
    var s := Run(Boot(), ops).state;
    if s.running {
      assert s.current in Queue(s, Running);
    }
  }

  /** Before `thread_libinit` succeeds, every other call fails with -1 and
      changes nothing; `thread_libinit` itself fails with -1 once the library
      is initialized (thread.cc:34-38, 65-69, 88-91, 102-106, 135-139,
      165-169, 197-201, 219-223). */
  lemma OnlyLibinitBeforeInit(x: Sys, op: Op)
    requires Valid(x.state) && !x.state.initialized && !op.Libinit?
    ensures Step(x, op) == x
  {
  }

  lemma LibinitOnce(x: Sys, a: bool)
    requires x.state.initialized
    ensures Step(x, Libinit(a)) == x
  {
  }

  /** Two threads A = 1 and B = 2 and lock 1. A locks and yields; B queues for
      the lock, and A is switched back in. A unlocks, which clears the owner
      and makes B ready without giving it the lock. A locks again, finds the
      lock free and takes it, then yields. B is switched in, and the rest of
      its `thread_lock` claims the lock over A. Both have had `thread_lock(1)`
      return 0 and neither has unlocked since (thread.cc:113-115, 120-124,
      146-154). */
  function Contention(): seq<Op> {
    [ Libinit(false), Create(false),
      Lock(1), Yield,        // A owns lock 1, B starts
      Lock(1),               // B queues for lock 1, A is switched back in
      Unlock(1),             // B becomes ready without the lock
      Lock(1),               // A takes the lock, which is free
      Yield ]                // B is switched in and overwrites the owner
  }

  /** The system after each call of `Contention()`: `Snap(i)` follows the first
      `i` calls. */
  function Snap(i: nat): Sys {
    var s2 := State(true, 1, true, [2], [], map[], map[], map[], map[2 := Start], 3, []);
    match i
    case 0 => Boot()
    case 1 => Sys(State(true, 1, true, [], [], map[], map[], map[], map[], 2, []), map[])
    case 2 => Sys(s2, map[])
    case 3 => Sys(s2.(owner := map[1 := 1]), map[1 := {1}])
    case 4 => Sys(s2.(current := 2, ready := [1], owner := map[1 := 1], resume := map[1 := InYield]), map[1 := {1}])
    case 5 => Sys(s2.(ready := [], owner := map[1 := 1], lockWaiters := map[1 := [2]],
                      resume := map[2 := InLock(1)]), map[1 := {1}])
    case 6 => Sys(s2.(owner := map[1 := Null], resume := map[2 := InLock(1)]), map[1 := {}])
    case 7 => Sys(s2.(owner := map[1 := 1], resume := map[2 := InLock(1)]), map[1 := {1}])
    case _ => Sys(s2.(current := 2, ready := [1], owner := map[1 := 2], resume := map[1 := InYield]), map[1 := {1, 2}])
  }

  /** Calls 1 to 3: `thread_libinit` starts A, A creates B and takes the free lock. */
  lemma ContentionStart(ops: seq<Op>, k: nat)
    requires ops == Contention() && k < 3
    ensures Step(Snap(k), ops[k]) == Snap(k + 1)
  {
    assert [] + [2] == [2];
    assert {} + {1} == {1};
  }

  /** Call 4: A yields and B starts. */
  lemma ContentionYield4(s: State)
    requires s == Snap(3).state
    ensures ThreadYield(s) == Outcome(Resumed(2, Start), Snap(4).state)
  {
    ContentionSwitch4(s);
    assert s.(current := 2, ready := [1], resume := map[1 := InYield]) == Snap(4).state;
  }

  lemma ContentionSwitch4(s: State)
    requires s == Snap(3).state
    ensures ThreadYield(s) == Resume(s.(current := 2, ready := [1], resume := map[1 := InYield]), Start)
  {
    YieldSwitchesToHead(s);
    var r := s.(current := s.ready[0], ready := s.ready[1..] + [s.current],
                resume := s.resume[s.current := InYield] - {s.ready[0]});
    assert r == s.(current := 2, ready := [1], resume := map[1 := InYield]) by {
      assert [2][1..] + [1] == [1];
      assert s.resume[1 := InYield] - {2} == map[1 := InYield];
    }
    assert PendingOf(s, s.ready[0]) == Start;
  }

  lemma ContentionStep4(ops: seq<Op>, k: nat)
    requires ops == Contention() && k == 3
    ensures Step(Snap(k), ops[k]) == Snap(k + 1)
  {
    var x := Snap(k);
    assert ops[k] == Yield;
    ContentionYield4(x.state);
    StepOf(x, Yield, Outcome(Resumed(2, Start), Snap(4).state));
  }

  /** Call 5: B finds lock 1 held, queues for it, and A is switched back in. */
  lemma ContentionLock5(s: State)
    requires s == Snap(4).state
    ensures ThreadLock(s, 1) == Outcome(Resumed(1, InYield), Snap(5).state)
  {
    ContendedLockSwitchesToHead(s, 1);
    assert LockWaiters(s, 1) + [2] == [2];
    assert [1][1..] == [];
    assert s.resume[2 := InLock(1)] - {1} == map[2 := InLock(1)];
  }

  lemma ContentionStep5(ops: seq<Op>, k: nat)
    requires ops == Contention() && k == 4
    ensures Step(Snap(k), ops[k]) == Snap(k + 1)
  {
    var x := Snap(k);
    assert ops[k] == Lock(1);
    ContentionLock5(x.state);
    StepOf(x, Lock(1), Outcome(Resumed(1, InYield), Snap(5).state));
  }

  /** Call 6: A unlocks; the owner is cleared and B only becomes ready. */
  lemma ContentionUnlock6(s: State)
    requires s == Snap(5).state
    ensures ThreadUnlock(s, 1) == Outcome(Returned(0), Snap(6).state)
  {
    var s1 := s.(owner := s.owner[1 := Null]);
    assert LockWaiters(s1, 1) == [2];
    var s2 := SetQueue(s1, LockQ(1), []);
    assert s2 == s1.(lockWaiters := map[]) by {
      assert s1.lockWaiters - {1} == map[];
    }
    assert Transfer(s1, LockQ(1), ReadyQ) == s2.(ready := [2]) by {
      assert [2][1..] == [];
      assert [] + [2] == [2];
    }
    assert s2.(ready := [2]) == Snap(6).state;
  }

  lemma ContentionStep6(ops: seq<Op>, k: nat)
    requires ops == Contention() && k == 5
    ensures Step(Snap(k), ops[k]) == Snap(k + 1)
  {
    var x := Snap(k);
    assert ops[k] == Unlock(1);
    ContentionUnlock6(x.state);
    StepOf(x, Unlock(1), Outcome(Returned(0), Snap(6).state));
    assert {1} - {1} == {};
  }

  /** Call 7: A finds lock 1 free and takes it. */
  lemma ContentionStep7(ops: seq<Op>, k: nat)
    requires ops == Contention() && k == 6
    ensures Step(Snap(k), ops[k]) == Snap(k + 1)
  {
    var x := Snap(k);
    assert ops[k] == Lock(1);
    assert ThreadLock(x.state, 1) == Outcome(Returned(0), Snap(7).state);
    StepOf(x, Lock(1), Outcome(Returned(0), Snap(7).state));
    assert {} + {1} == {1};
  }

  /** Call 8: A yields; B is switched in and claims lock 1 over A. */
  lemma ContentionYield8(s: State)
    requires s == Snap(7).state
    ensures ThreadYield(s) == Outcome(Resumed(2, InLock(1)), Snap(8).state)
  {
    ContentionSwitch8(s);
    ContentionClaim8(s);
  }

  lemma ContentionSwitch8(s: State)
    requires s == Snap(7).state
    ensures ThreadYield(s) == Resume(s.(current := 2, ready := [1], resume := map[1 := InYield]), InLock(1))
  {
    YieldSwitchesToHead(s);
    var r := s.(current := s.ready[0], ready := s.ready[1..] + [s.current],
                resume := s.resume[s.current := InYield] - {s.ready[0]});
    assert r == s.(current := 2, ready := [1], resume := map[1 := InYield]) by {
      assert [2][1..] + [1] == [1];
      assert s.resume[1 := InYield] - {2} == map[1 := InYield];
    }
    assert PendingOf(s, s.ready[0]) == InLock(1);
  }

  lemma ContentionClaim8(s: State)
    requires s == Snap(7).state
    ensures Resume(s.(current := 2, ready := [1], resume := map[1 := InYield]), InLock(1))
              == Outcome(Resumed(2, InLock(1)), Snap(8).state)
  {
  }

  lemma ContentionStep8(ops: seq<Op>, k: nat)
    requires ops == Contention() && k == 7
    ensures Step(Snap(k), ops[k]) == Snap(k + 1)
  {
    var x := Snap(k);
    assert ops[k] == Yield;
    ContentionYield8(x.state);
    StepOf(x, Yield, Outcome(Resumed(2, InLock(1)), Snap(8).state));
    assert {1} + {2} == {1, 2};
  }

  lemma ContentionStep(ops: seq<Op>, k: nat)
    requires ops == Contention() && k < 8
    ensures Step(Snap(k), ops[k]) == Snap(k + 1)
  {
    if k < 3 { ContentionStart(ops, k); }
    else if k == 3 { ContentionStep4(ops, k); }
    else if k == 4 { ContentionStep5(ops, k); }
    else if k == 5 { ContentionStep6(ops, k); }
    else if k == 6 { ContentionStep7(ops, k); }
    else { ContentionStep8(ops, k); }
  }

  /** `Contention()` passes through the snapshots one call at a time. */
  lemma ContentionRuns(ops: seq<Op>)
    requires ops == Contention()
    ensures Run(Boot(), ops) == Snap(8)
  {
    forall k | 0 <= k < 8 ensures Step(Snap(k), ops[k]) == Snap(k + 1) {
      ContentionStep(ops, k);
    }
    RunFollows(ops, Snap, 0);
    assert ops[0..] == ops;
  }

  /** After `Contention()` both threads hold lock 1 at once, by the return codes
      of `thread_lock`, and the owner recorded by the library is the one that
      claimed it last. */
  lemma MutualExclusionFails(ops: seq<Op>)
    requires ops == Contention()
    ensures Holders(Run(Boot(), ops).held, 1) == {1, 2}
    ensures OwnerOf(Run(Boot(), ops).state, 1) == 2
  {
    ContentionRuns(ops);
    ContentionEnd(Run(Boot(), ops));
  }

  lemma ContentionEnd(x: Sys)
    requires x == Snap(8)
    ensures Holders(x.held, 1) == {1, 2} && OwnerOf(x.state, 1) == 2
  {
  }

  /** Two threads A = 1 and B = 2 and lock 1: A locks and yields; B, which
      never locked, waits on lock 1. The release at the start of `thread_wait`
      clears A's ownership, so when A is switched back in it still believes it
      holds the lock but cannot unlock it (thread.cc:140-145, 170-177). */
  function Stolen(): seq<Op> {
    [ Libinit(false), Create(false),
      Lock(1), Yield,        // A owns lock 1, B starts
      Wait(1, 0) ]           // B waits without owning the lock; A is switched back in
  }

  /** The system after each call of `Stolen()`; the first four calls are those
      of `Contention()`. */
  function StolenSnap(i: nat): Sys {
    if i < 5 then Snap(i)
    else
      Sys(State(true, 1, true, [], [], map[1 := Null], map[], map[(1, 0) := [2]], map[2 := InWait(1, 0)], 3, []),
          map[1 := {1}])
  }

  /** Call 5: B waits on lock 1, which only A holds, and A is switched back in. */
  lemma StolenWait5(s: State)
    requires s == Snap(4).state
    ensures ThreadWait(s, 1, 0) == Outcome(Resumed(1, InYield), StolenSnap(5).state)
  {
    var r := Release(s, 1);
    assert r == s.(owner := map[1 := Null]);
    var p := Park(r, BlockQ(1, 0), InWait(1, 0));
    assert Blocked(r, 1, 0) + [2] == [2];
    assert p == r.(running := false, blocked := map[(1, 0) := [2]], resume := map[1 := InYield, 2 := InWait(1, 0)]);
    assert [1][1..] == [];
    assert p.resume - {1} == map[2 := InWait(1, 0)];
  }

  lemma StolenStep5(ops: seq<Op>, k: nat)
    requires ops == Stolen() && k == 4
    ensures Step(StolenSnap(k), ops[k]) == StolenSnap(k + 1)
  {
    var x := StolenSnap(k);
    assert ops[k] == Wait(1, 0);
    var o := Outcome(Resumed(1, InYield), StolenSnap(5).state);
    StolenWait5(x.state);
    StepOf(x, Wait(1, 0), o);
    assert Observe(x.held, x.state, Wait(1, 0), o) == x.held[1 := {1} - {2}];
    assert {1} - {2} == {1};
  }

  lemma StolenStep(ops: seq<Op>, k: nat)
    requires ops == Stolen() && k < 5
    ensures Step(StolenSnap(k), ops[k]) == StolenSnap(k + 1)
  {
    if k < 4 {
      assert ops[k] == Contention()[k];
      if k < 3 { ContentionStart(Contention(), k); }
      else { ContentionStep4(Contention(), k); }
    } else {
      StolenStep5(ops, k);
    }
  }

  lemma StolenRuns(ops: seq<Op>)
    requires ops == Stolen()
    ensures Run(Boot(), ops) == StolenSnap(5)
  {
    forall k | 0 <= k < 5 ensures Step(StolenSnap(k), ops[k]) == StolenSnap(k + 1) {
      StolenStep(ops, k);
    }
    RunFollows(ops, StolenSnap, 0);
    assert ops[0..] == ops;
  }

  /** After `Stolen()`, A has control and holds lock 1 by the return code of its
      `thread_lock`, yet the lock has no owner and A's `thread_unlock` fails. */
  lemma WaitIgnoresOwnership(ops: seq<Op>)
    requires ops == Stolen()
    ensures var x := Run(Boot(), ops);
              && x.state.running && x.state.current == 1
              && 1 in Holders(x.held, 1)
              && OwnerOf(x.state, 1) == Null
              && ThreadUnlock(x.state, 1).control == Returned(-1)
  {
    StolenRuns(ops);
    StolenEnd(Run(Boot(), ops));
  }

  lemma StolenEnd(x: Sys)
    requires x == StolenSnap(5)
    ensures && x.state.running && x.state.current == 1
            && 1 in Holders(x.held, 1)
            && OwnerOf(x.state, 1) == Null
            && ThreadUnlock(x.state, 1).control == Returned(-1)
  {
  }
}
