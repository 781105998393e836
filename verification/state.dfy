/**
  The runtime state of the cooperative thread library (`thread.cc`).

  The source keeps its state in process-wide globals: the running context
  `current_thread`, the ready FIFO `q_ready`, the reclaim FIFO `q_delete`,
  the lock table (`lock_user` and the waiter FIFOs `q_lock`), the condition
  table `q_block` and the flag `libinit_called`. Here the same state is one
  immutable record, and a `ucontext_t*` is replaced by a thread id handed out
  by a counter.
 */
module ThreadState {

  /** A thread id. Ids start at 1; 0 plays the role of the null pointer. */
  type Tid = nat

  const Null: Tid := 0

  type LockId = nat
  type CondId = nat

  /** What a suspended thread still has to do when it is dispatched again:
      begin its start function, or finish the API call it blocked in. */
  datatype Pending =
    | Start
    | InYield
    | InLock(lock: LockId)
    | InWait(lock: LockId, cond: CondId)

  datatype State = State(
    initialized: bool,                            // libinit_called
    current: Tid,                                 // current_thread
    running: bool,                                // a thread (current) has control, not the root continuation
    ready: seq<Tid>,                              // q_ready
    reclaim: seq<Tid>,                            // q_delete
    owner: map<LockId, Tid>,                      // lock_user; Null means "set to 0"
    lockWaiters: map<LockId, seq<Tid>>,           // q_lock; an empty queue is never stored
    blocked: map<(LockId, CondId), seq<Tid>>,     // q_block; an empty queue is never stored
    resume: map<Tid, Pending>,                    // the saved continuation of every suspended thread
    nextId: Tid,                                  // the next fresh id
    freed: seq<Tid>                               // the records deleted so far, in deletion order
  )

  /** The state of a process that has not called `thread_libinit` yet. */
  function Init(): State {
    State(false, Null, false, [], [], map[], map[], map[], map[], 1, [])
  }

  /** `lock_user[l]`: reading a missing key yields the null pointer. */
  function OwnerOf(s: State, l: LockId): Tid {
    if l in s.owner then s.owner[l] else Null
  }

  /** Reading a queue table: a missing key is the empty queue. */
  function Lookup<K>(m: map<K, seq<Tid>>, k: K): seq<Tid> {
    if k in m then m[k] else []
  }

  /** Writing a queue table, keeping it free of empty queues. */
  function Store<K(!new)>(m: map<K, seq<Tid>>, k: K, q: seq<Tid>): (m': map<K, seq<Tid>>)
    ensures Lookup(m', k) == q
    ensures forall j :: j != k ==> Lookup(m', j) == Lookup(m, j)
    ensures k in m' <==> q != []
  {
    if q == [] then m - {k} else m[k := q]
  }

  function LockWaiters(s: State, l: LockId): seq<Tid> {
    Lookup(s.lockWaiters, l)
  }

  function Blocked(s: State, l: LockId, c: CondId): seq<Tid> {
    Lookup(s.blocked, (l, c))
  }

  function PendingOf(s: State, t: Tid): Pending {
    if t in s.resume then s.resume[t] else Start
  }

  predicate NoDup(q: seq<Tid>) {
    forall i, j :: 0 <= i < j < |q| ==> q[i] != q[j]
  }

  /** The places a thread can be: executing, or waiting in one of the FIFOs. */
  datatype Slot =
    | Running
    | ReadyQ
    | ReclaimQ
    | LockQ(lock: LockId)
    | BlockQ(lock: LockId, cond: CondId)

  /** The threads in a slot, head first. The running slot holds at most one. */
  function Queue(s: State, x: Slot): (q: seq<Tid>)
    ensures x == Running ==> |q| <= 1
  {
    match x
    case Running => if s.running then [s.current] else []
    case ReadyQ => s.ready
    case ReclaimQ => s.reclaim
    case LockQ(l) => LockWaiters(s, l)
    case BlockQ(l, c) => Blocked(s, l, c)
  }

  /** Replaces the contents of one slot; every other slot and every table is kept. */
  function SetQueue(s: State, x: Slot, q: seq<Tid>): (r: State)
    requires x == Running ==> |q| <= 1
    ensures Queue(r, x) == q
    ensures forall y :: y != x ==> Queue(r, y) == Queue(s, y)
    ensures r.initialized == s.initialized && r.owner == s.owner && r.resume == s.resume
    ensures r.nextId == s.nextId && r.freed == s.freed
    ensures x != Running ==> r.running == s.running && r.current == s.current
    ensures !x.LockQ? ==> r.lockWaiters == s.lockWaiters
    ensures !x.BlockQ? ==> r.blocked == s.blocked
  {
    match x
    case Running => if q == [] then s.(running := false) else s.(current := q[0], running := true)
    case ReadyQ => s.(ready := q)
    case ReclaimQ => s.(reclaim := q)
    case LockQ(l) => s.(lockWaiters := Store(s.lockWaiters, l, q))
    case BlockQ(l, c) => s.(blocked := Store(s.blocked, (l, c), q))
  }

  /** `to.push(from.front()); from.pop();` — the one queue move the runtime makes:
      the head of `from` goes to the tail of `to`, and nothing else moves. Moving
      into `Running` makes the moved thread current (a context switch). */
  function Transfer(s: State, from: Slot, to: Slot): (r: State)
    requires from != to
    requires Queue(s, from) != []
    requires to == Running ==> Queue(s, Running) == []
    ensures Queue(r, from) == Queue(s, from)[1..]
    ensures Queue(r, to) == Queue(s, to) + [Queue(s, from)[0]]
    ensures forall y :: y != from && y != to ==> Queue(r, y) == Queue(s, y)
    ensures r.initialized == s.initialized && r.owner == s.owner && r.resume == s.resume
    ensures r.nextId == s.nextId && r.freed == s.freed
    ensures to != Running ==> r.current == s.current
    ensures !from.LockQ? && !to.LockQ? ==> r.lockWaiters == s.lockWaiters
    ensures !from.BlockQ? && !to.BlockQ? ==> r.blocked == s.blocked
  {
    var q := Queue(s, from);
    SetQueue(SetQueue(s, from, q[1..]), to, Queue(s, to) + [q[0]])
  }
}
