# A model of a cooperative user-level thread library

`thread.cc` is a small user-level thread library. It has eight calls:
`thread_libinit`, `thread_create`, `thread_yield`, `thread_lock`,
`thread_unlock`, `thread_wait`, `thread_signal` and `thread_broadcast`. It
also has an internal dispatcher, `run_ready_thread`, and a thread trampoline,
`run_thread`. Threads are `ucontext_t` records. Only one thread runs at a
time, and control passes only at a successful `thread_libinit`, which
switches from the process's main code into the first thread, at `thread_yield`, at a contended
`thread_lock`, at `thread_wait`, and when a thread finishes.

The library's globals become one immutable record:

| Global | Field of `ThreadState.State` |
|---|---|
| `current_thread` | `current` |
| `q_ready` | `ready` |
| `q_delete` | `reclaim` |
| `lock_user` | `owner` |
| `q_lock` | `lockWaiters` |
| `q_block` | `blocked` |
| `libinit_called` | `initialized` |

Other modelling choices:

- **Thread ids.** A record is a number handed out by a counter. Ids start at 1, and 0 plays the null pointer.
- **Running flag.** `running` is true while some thread, rather than the process's root continuation, has control.
- **Deleted records.** `freed` lists the records deleted so far, in deletion order.
- **Call results.** Every call returns an `Outcome`: who has control afterwards, and the new state. There are three cases:
  - `Returned(code)`: the caller goes on with its call's return code.
  - `Resumed(t, call)`: thread `t` was switched in, and its pending `call` returned.
  - `Exited`: the ready FIFO was empty, so the root continuation resumed and the process exits.
- **Saved continuations.** A suspended thread stores its continuation as a `Pending` tag. The tag records where the thread stopped: `Start`, `InYield`, `InLock(l)` or `InWait(l, c)`. `Runtime.Resume` runs the rest of that call when the thread is dispatched again. The rest of a contended `thread_lock` is line 124, which sets the owner. The rest of `thread_wait` is the `thread_lock` call at line 188.
- **Queues.** Each queue of the source is a `Slot`. Every queue move the code makes is one `Transfer`: pop the head of one slot and push it on the tail of another.

The modules:

- `ThreadState` (state.dfy): the state and the queue moves.
- `Runtime` (runtime.dfy): the transitions.
- `Invariant` (invariant.dfy): the structural invariant `Valid`, and one lemma per transition saying it keeps `Valid`. The invariant says:
  - every thread is in at most one place, and at most once there;
  - ids handed out by the counter are never reused (see "Record reuse" under "## Left out"), no queued or running thread has been deleted, and no record is deleted twice;
  - a thread waiting for lock `l` is suspended in `thread_lock(l)`, and one waiting on condition `(l, c)` is suspended in `thread_wait(l, c)`;
  - a lock's owner never waits in that lock's own FIFO.
- `Properties` (properties.dfy): the behaviour of single calls in reachable states.
- `Traces` (traces.dfy): whole runs, starting from a process that has not called `thread_libinit`.

`Traces` also tracks which threads hold each lock according to the return codes they received. A thread holds a lock from the moment `thread_lock` returns 0 to it until it unlocks or waits. Two concrete runs show how the library behaves:

- `Traces.MutualExclusionFails`: two threads hold one lock at once.
  1. `thread_unlock` clears the owner and only makes the head waiter ready.
  2. The unlocking thread locks again, finds the lock free and takes it.
  3. It yields, the waiter is switched in, and line 124 makes the waiter the owner without a check.
- `Traces.WaitIgnoresOwnership`: a `thread_wait` by a thread that does not own the lock clears the real owner's ownership. The owner's later `thread_unlock` then fails.

## Model

| member | source | states |
|---|---|---|
| `ThreadState.Transfer` | thread.cc:153-154 | The head of one queue moves to the tail of another. Every other queue, the lock table and the saved continuations stay as they were. |
| `Runtime.Park` | thread.cc:120-123 | The caller is appended to the tail of the chosen queue with its continuation tag and gives up the processor. No other queue changes. |
| `Runtime.Dispatch` | thread.cc:238-254 | With an empty ready FIFO the root continuation resumes and nothing changes. Otherwise the ready FIFO gets shorter, and the control is `Exited` exactly when no thread runs afterwards: a woken `thread_wait` may queue for its lock again and find nothing else ready. The reclaim FIFO, the condition table and the deleted records are untouched. Lock waiter FIFOs only grow. |
| `Runtime.Resume` | thread.cc:123-188 | A resumed fresh or yielding thread gets control with the state unchanged. A thread resumed in `thread_lock(l)` becomes owner of `l` whoever owned it, and all other owners stay. A thread resumed in `thread_wait(l, c)` runs the lock path. If it already owns `l`, it gets control with the state unchanged. If `l` is free, it gets control as the owner of `l` and nothing else changes. Otherwise it joins `l`'s waiter FIFO. |
| `Runtime.Acquire` | thread.cc:107-127 | Locking a lock the caller owns returns -1 with nothing changed. A free lock is taken and 0 is returned. A held lock puts the caller at the tail of the waiter FIFO, and the caller loses control. |
| `Runtime.ThreadLibinit` | thread.cc:30-59 | A second call returns -1 and resets nothing. An allocation failure returns -1, with the library marked initialized. Otherwise the first thread, with a fresh id, starts at once. |
| `Runtime.ThreadCreate` | thread.cc:61-85 | Before init, or on allocation failure, -1 with nothing changed. Otherwise 0, and a fresh id with a start continuation is appended to the ready FIFO. Every other queue, the current thread, the owners and the deleted records are unchanged. |
| `Runtime.ThreadYield` | thread.cc:86-97 | Before init, -1 with nothing changed. Afterwards the caller never keeps control directly, and no record is created or deleted. |
| `Runtime.ThreadLock` | thread.cc:98-128 | Before init, -1. Relocking a lock the caller owns gives -1 with the state unchanged. A free lock gives 0 with only that lock's owner changed. A contended lock appends the caller to the waiter FIFO, and the call does not return yet. |
| `Runtime.ThreadUnlock` | thread.cc:130-158 | Returns -1 exactly when the library is uninitialized or the caller does not own the lock; then nothing changes. On success, ownership is cleared (not handed over), and at most the head waiter moves to the ready tail. Nothing else moves. |
| `Runtime.Release` | thread.cc:170-177 | With waiters, the head waiter becomes owner and joins the ready tail. Without waiters, ownership is cleared. Whether the caller owned the lock is never consulted, and other owners and queues are untouched. |
| `Runtime.ThreadWait` | thread.cc:160-192 | Before init, -1 with nothing changed. Afterwards the caller never keeps control and ends up at the tail of the condition's FIFO. |
| `Runtime.ThreadSignal` | thread.cc:193-214 | Before init, -1. Afterwards 0. With waiters, exactly the head moves to the ready tail; with none, nothing changes. The lock table, the saved continuations and the control are untouched. |
| `Runtime.WakeAll` | thread.cc:225-234 | The ready FIFO gains the whole condition FIFO in order, and the condition FIFO ends empty. Nothing else changes. |
| `Runtime.ThreadBroadcast` | thread.cc:215-237 | Before init, -1. Otherwise 0; every waiter becomes ready in the order it waited, and the lock table is untouched. |
| `Runtime.Reap` | thread.cc:265-278 | The reclaim FIFO is emptied, and its records are appended to the deleted records in FIFO order. Nothing else changes. |
| `Runtime.Terminate` | thread.cc:263-281 | The previously queued records are deleted, the finishing thread becomes the only queued record, and the finishing thread does not keep control. |
| `Invariant.TransferKeepsPlacement` | thread.cc:153-154 | Any queue move keeps every thread in at most one place, with no deleted or unissued id queued. |
| `Invariant.ReapKeepsPlacement` | thread.cc:265-278 | Draining the reclaim FIFO keeps every queue free of deleted ids and deletes no record twice. |
| `Invariant.ClaimKeepsValid` | thread.cc:115 | The running thread taking a lock keeps the invariant. |
| `Invariant.ParkKeepsTags` | thread.cc:120 | A parked waiter carries the tag of the call it waits in. |
| `Invariant.ParkKeepsValid` | thread.cc:180 | Parking the caller on a lock (which it does not own) or a condition FIFO keeps the invariant. |
| `Invariant.DispatchKeepsValid` | thread.cc:238-254 | A dispatch, including every continuation it resumes, keeps the invariant. |
| `Invariant.ResumeKeepsValid` | thread.cc:124 | Finishing a pending call keeps the invariant. |
| `Invariant.AcquireKeepsValid` | thread.cc:107-127 | The lock path keeps the invariant. |
| `Invariant.LibinitKeepsValid` | thread.cc:30-59 | `thread_libinit` keeps the invariant. |
| `Invariant.CreateKeepsValid` | thread.cc:61-85 | `thread_create` keeps the invariant: the new id is fresh. |
| `Invariant.YieldKeepsValid` | thread.cc:86-97 | `thread_yield` keeps the invariant. |
| `Invariant.LockKeepsValid` | thread.cc:98-128 | `thread_lock` keeps the invariant. |
| `Invariant.NullNeverQueued` | thread.cc:149 | No queue ever holds the null record. |
| `Invariant.UnlockKeepsValid` | thread.cc:130-158 | `thread_unlock` keeps the invariant. |
| `Invariant.ReleaseKeepsValid` | thread.cc:170-177 | The eager hand-off in `thread_wait` keeps the invariant. |
| `Invariant.WaitKeepsValid` | thread.cc:160-192 | `thread_wait` keeps the invariant. |
| `Invariant.WakeOneKeepsValid` | thread.cc:209-210 | Waking one condition waiter keeps the invariant. |
| `Invariant.SignalKeepsValid` | thread.cc:193-214 | `thread_signal` keeps the invariant. |
| `Invariant.WakeAllKeepsValid` | thread.cc:225-234 | The broadcast loop keeps the invariant. |
| `Invariant.BroadcastKeepsValid` | thread.cc:215-237 | `thread_broadcast` keeps the invariant. |
| `Invariant.TerminateKeepsValid` | thread.cc:263-281 | Thread termination keeps the invariant. |
| `Properties.DispatchPopsHead` | thread.cc:240-248 | The thread switched in is the head of the ready FIFO. The rest of the FIFO keeps its order, and the tag the thread was suspended with is what it resumes. |
| `Properties.YieldAlone` | thread.cc:93-95 | A yield with nothing else ready switches the caller straight back in, and the state is exactly as before. |
| `Properties.YieldSwitchesToHead` | thread.cc:93-95 | A yield with another thread at the head of the ready FIFO does exactly this: the caller joins the ready tail suspended in `thread_yield`, the head becomes current with its saved continuation consumed, and that continuation runs. |
| `Properties.ContendedLockSwitchesToHead` | thread.cc:118-123 | A contended `thread_lock` with another thread ready does exactly this: the caller joins the lock's waiter FIFO suspended in `thread_lock`, the head of the ready FIFO becomes current with its continuation consumed, and that continuation runs. |
| `Properties.YieldRoundRobin` | thread.cc:93-95 | A yield runs the oldest ready thread next. The caller joins the tail behind all threads already ready, suspended in `thread_yield`. |
| `Properties.LockContended` | thread.cc:118-123 | A contended lock leaves the caller in that lock's waiter FIFO with the lock's tag, and not running. |
| `Properties.UnlockWakesLazily` | thread.cc:146-154 | A successful unlock with waiters leaves the lock ownerless. The head waiter, a different thread, joins the ready tail still suspended in `thread_lock`. |
| `Properties.ResumedWaiterOverwrites` | thread.cc:124 | A waiter switched back in takes the lock even when another thread owns it. |
| `Properties.WaitHandsOffEagerly` | thread.cc:170-174 | `thread_wait` makes the head lock waiter both owner and ready at once, still suspended in `thread_lock`, and the invariant holds. |
| `Properties.WaitParksThenDispatches` | thread.cc:170-181 | `thread_wait` is exactly this: the lock passes to the head of its waiter FIFO, which joins the ready tail, or is cleared when nobody waits. The caller joins the condition's FIFO suspended in `thread_wait(l, c)`, and the dispatcher runs. |
| `Properties.WaitTailRelocks` | thread.cc:188 | A thread resumed from a condition returns owning the lock when the lock was free or already its own; otherwise it queues for the lock again. |
| `Properties.CreateFresh` | thread.cc:71-78 | The created id is nowhere yet. It is not queued, not deleted, owns no lock and has no saved continuation. It ends up exactly once in the ready FIFO. |
| `Properties.TerminateFreesSafely` | thread.cc:264-281 | Termination deletes exactly the earlier queued records. It never deletes the finishing thread, never deletes a record twice, and never switches to a deleted thread. |
| `Properties.FinishedOwnerKeepsLocks` | thread.cc:263-281 | A finishing thread's locks stay owned by its id after its record is queued for deletion. Every other owner is unchanged too, unless the thread switched in next finishes a pending lock or wait. |
| `Properties.SignalTimes` | thread.cc:202-211 | Signalling a condition as often as it has waiters empties its FIFO. |
| `Properties.BroadcastIsRepeatedSignal` | thread.cc:225-234 | A broadcast leaves the same state as repeated signals until the condition FIFO is empty. |
| `Traces.Apply` | thread.cc:34-38 | Before init every call except `thread_libinit` returns -1 with nothing changed. After init `thread_libinit` returns -1 with nothing changed. |
| `Traces.ObserveFrame` | thread.cc:113-127 | A failed call changes nobody's holdings. Only the lock a call names, and the lock the resumed thread's pending call was for, change holders. |
| `Traces.StepFrame` | thread.cc:30-237 | A call returning -1 changes nobody's holdings, including `thread_libinit`'s allocation failure, which still sets the flag. |
| `Traces.ApplyKeepsValid` | thread.cc:30-237 | Every call made by whoever has control keeps the invariant. |
| `Traces.SuspendingCallKeepsValid` | thread.cc:86-192 | `thread_yield`, `thread_lock` and `thread_wait`, the calls that can switch threads, keep the invariant. |
| `Traces.ReturningCallKeepsValid` | thread.cc:30-237 | `thread_libinit`, `thread_create`, `thread_unlock`, `thread_signal` and `thread_broadcast` keep the invariant. |
| `Traces.RunKeepsValid` | thread.cc:30-281 | Every reachable state satisfies the invariant. |
| `Traces.ReachableNeverUsesFreed` | thread.cc:265-279 | In every reachable state no record has been deleted twice. No deleted record is running or queued. |
| `Traces.OnlyLibinitBeforeInit` | thread.cc:65-69 | Before initialization every call other than `thread_libinit` changes nothing. |
| `Traces.LibinitOnce` | thread.cc:34-38 | Once initialized, `thread_libinit` changes nothing. |
| `Traces.ContentionRuns` | thread.cc:98-158 | The eight-call contention run reaches the stated final snapshot. |
| `Traces.MutualExclusionFails` | thread.cc:113-124 | After a lock, a yield, a contended lock, an unlock, a lock on the freed lock and a yield to the waiter, two threads both hold lock 1 by `thread_lock`'s return codes. The recorded owner is the waiter that resumed last. |
| `Traces.StolenRuns` | thread.cc:160-192 | The five-call run with a non-owner's `thread_wait` reaches the stated final snapshot. |
| `Traces.WaitIgnoresOwnership` | thread.cc:170-177 | A `thread_wait` by a non-owner leaves the lock ownerless while its holder still runs, and the holder's `thread_unlock` returns -1. |

## Left out

- **Interrupts and preemption.** Interrupt disabling and enabling are not modelled. Nothing preempts a thread, so every call is one atomic step.
- **Continuations and stacks.** `getcontext`, `makecontext`, `swapcontext` and `setcontext`, the stacks and their size are replaced by thread ids and the `Pending` tags.
- **Unused globals.** `m_delete` is never used. `init_create` only guards a commented-out timer start.
- **Exit.** The message and `exit(0)` at the end of `thread_libinit` become the `Exited` control. Nothing happens after it.
- **Start functions.** What a start function does is supplied by the run as a sequence of calls, followed by `Finish` when it returns.
- **Allocation failure.** It is a boolean parameter of `thread_libinit` and `thread_create`. Memory leaked by a partly completed allocation is not modelled.
- **Null-front checks.** The checks at thread.cc:149, 204 and 227 are left out: `Invariant.NullNeverQueued` shows no queue holds the null record. If line 149 could fire, it would return -1 after line 146 had already cleared the owner.
- **Libinit allocation failure.** The code sets `libinit_called` before its `try` (thread.cc:39), so the model's `ThreadLibinit` marks the library initialized when allocation fails.
- **Calls after a failed `thread_libinit`.** After that failure the main code keeps running with the library marked initialized and `current_thread` null or partly built (thread.cc:39-48, 52-54). `Traces.Issuable` treats every later call as one nobody can make, so runs that go on calling, for example a `thread_create` that returns 0 and queues a thread (thread.cc:65-84), are not modelled, and `Traces.RunKeepsValid` and `Traces.ReachableNeverUsesFreed` do not cover them. In that state `thread_yield`, `thread_lock` and `thread_wait` would run on a partly built or null `current_thread`, which the model cannot represent. After `Exited` the flags `Issuable` reads are the same (initialized and not running), which is why the two are not told apart.
- **Record reuse.** Ids come from a counter and are never reused. In the source a deleted record's address (thread.cc:276) can be handed out again by `new ucontext_t` in a later `thread_create` (thread.cc:71). Termination never clears lock ownership (thread.cc:263-281), so a lock held by a finished thread stays owned by the dead id in the model (`Properties.FinishedOwnerKeepsLocks`). With address reuse, a new thread at that address would inherit the lock: its `thread_lock` would return -1 (thread.cc:108-111) and its `thread_unlock` would succeed (thread.cc:141-157). That inheritance is not modelled.
- **Map defaults.** `lock_user[lock]`, `q_lock[lock]` and `q_block[lock][cond]` (thread.cc:180, 202, 225) insert default entries when read. The model reads absent keys as the null owner or the empty queue, and never stores an empty queue. Neither change is observable.
- **Lock and condition ids.** These are `unsigned int` in the source and `nat` here. They are only used as map keys, so the width does not matter.
- Runtime.Dispatch: does not name the thread switched in. `Properties.DispatchPopsHead` does.
- Properties.DispatchPopsHead: holds only when the head thread was not suspended in `thread_wait`. The tail of `thread_wait` may block again and dispatch further, so only the invariant is stated for that case.
- Properties.YieldRoundRobin: holds only when the head thread was not suspended in `thread_wait`, for the same reason.
- Runtime.ThreadYield: states only that the caller does not keep control and that nothing is created or deleted. Which thread runs next is stated by `Properties.YieldAlone` and `Properties.YieldRoundRobin`.
- Runtime.ThreadWait: states the caller's place on the condition FIFO but not the release of the lock or which thread runs next. `Properties.WaitParksThenDispatches` states the release and the hand-over to `Runtime.Dispatch` exactly.
- **Strict FIFO hand-over.** The property "waiters get the lock in arrival order, one at a time" does not hold for this code, so it is not stated. `Traces.MutualExclusionFails` exhibits a run that breaks it.
