/** What the invariant means to a reader: consequences for every reachable state. */
module Theorems {
  import opened Slots
  import opened Rings
  import opened Exchange
  import opened IpcGraph
  import opened Rrmq
  import opened KernelSpec
  import opened Invariants
  import opened GateProofs
  import opened EventProofs
  import opened TickProofs
  import opened Protocol

  /** Following a blocked sender to its receiver, and on, ends at a task that is not blocked on
      an IPC; no chain of pending messages is closed. */
  lemma {:induction false} DeadlockFree(s: State, t: nat) returns (u: nat)
    requires Inv(s) && t < s.N() && s.st[t] == IpcSendBlocked
    ensures u < s.N() && s.st[u] != IpcSendBlocked && Reaches(s.ipcs, t, u)
    ensures !Reaches(s.ipcs, t, t)
    decreases s.N() - |Ancestors(s.ipcs, t)|
  {
    var d := s.sentTo[t];
    assert Sends(s.ipcs, t, d);
    ReachesStep(s.ipcs, t, t, d);
    if s.st[d] != IpcSendBlocked {
      u := d;
    } else {
      AncestorsGrow(s.ipcs, t, d);
      AncestorsBound(s.ipcs, d);
      u := DeadlockFree(s, d);
      ReachesTrans(s.ipcs, t, d, u);
    }
  }

  /** A sender is blocked exactly when one, and only one, slot holds its message. */
  lemma OneSlotPerSender(s: State, src: nat)
    requires Inv(s) && src < s.N()
    ensures s.st[src] == IpcSendBlocked <==> exists d :: 0 <= d < s.N() && s.ipcs[d][src] != 0
    ensures forall d, e :: 0 <= d < s.N() && 0 <= e < s.N() && s.ipcs[d][src] != 0 && s.ipcs[e][src] != 0 ==> d == e
  {
    if s.st[src] == IpcSendBlocked {
      assert s.ipcs[s.sentTo[src]][src] != 0;
    }
  }

  /** A task the scheduler was given is ready exactly when it occupies one cell of the two
      jobsets, and it never occupies two; no other task occupies any. */
  lemma ReadyIffQueued(s: State, t: nat)
    requires Inv(s) && t < s.N()
    ensures Copies(s.sched, t) == if t < s.Users() && s.started[t] && s.st[t] == Ready then 1 else 0
    ensures t < s.Users() && s.started[t] ==> (s.st[t] == Ready <==> Copies(s.sched, t) == 1)
  {
    assert t in ReadySet(s.st, s.started) <==> t < s.Users() && s.started[t] && s.st[t] == Ready;
  }

  /** An election runs idle exactly when no task is ready, and otherwise the ready task of
      highest priority in the jobset it serves, the lowest cell among equals. */
  lemma ElectionChoice(s: State)
    requires Inv(s)
    ensures var q := Elect(s);
            && (q.sched.current == None <==> forall t :: 0 <= t < s.Users() && s.started[t] ==> s.st[t] != Ready)
            && (q.sched.current.Some? ==>
                 && s.st[Current(q)] == Ready && Current(q) < s.Users()
                 && forall i :: 0 <= i < s.size && q.sched.Active().cells[i].active ==>
                      var h := q.sched.Active().cells[i].handler;
                      && s.meta[h].priority <= s.meta[Current(q)].priority
                      && (s.meta[h].priority == s.meta[Current(q)].priority ==> q.sched.current.value <= i))
  {
    hide Elect;
    ElectCore(s);
    var q := Elect(s);
    if q.sched.current == None {
      forall t | 0 <= t < s.Users() && s.started[t] ensures s.st[t] != Ready {
        assert t !in ReadySet(s.st, s.started);
      }
    }
  }

  /** A sleep request is never refused for lack of room: the caller sleeps. */
  lemma SleepAlwaysSleeps(s: State, ms: nat, mode: nat)
    requires Steady(s) && s.sched.current.Some? && mode <= SLEEP_MODE_DEEP
    ensures var q := Sleep(s, ms, mode);
            && q.st[Current(s)] == (if mode == SLEEP_MODE_DEEP then SleepingDeep else Sleeping)
            && Count(q.delays, Current(s)) == 1
  {
    DelayRoom(s);
    SleepKeeps(s, ms, mode);
  }

  // ---- Every run from boot ---------------------------------------------------------------------------------

  /** A run of legal steps from the boot of a board with at most `size` tasks. */
  ghost predicate BootRun(size: nat, meta: seq<Meta>, auto: seq<bool>, trace: seq<State>, acts: seq<Action>) {
    && |meta| <= size && MetaOk(meta) && |auto| == |meta|
    && IsRun(trace, acts) && trace[0] == Boot(size, meta, auto, |meta| - 1)
  }

  lemma BootRunInv(size: nat, meta: seq<Meta>, auto: seq<bool>, trace: seq<State>, acts: seq<Action>, k: nat)
    requires BootRun(size, meta, auto, trace, acts) && k < |trace| && !trace[k].panicked
    ensures Steady(trace[k])
  {
    BootRunKeeps(size, meta, auto, trace, acts, k);
  }

  /** In every state of every run the chain of receivers of a blocked sender ends at a task that
      is not blocked on an IPC. */
  lemma RunDeadlockFree(size: nat, meta: seq<Meta>, auto: seq<bool>, trace: seq<State>, acts: seq<Action>, k: nat,
                        t: nat)
    returns (u: nat)
    requires BootRun(size, meta, auto, trace, acts) && k < |trace| && !trace[k].panicked
    requires t < |trace[k].st| && trace[k].st[t] == IpcSendBlocked
    ensures Square(trace[k].ipcs) && !Reaches(trace[k].ipcs, t, t)
    ensures u < |trace[k].st| && trace[k].st[u] != IpcSendBlocked && Reaches(trace[k].ipcs, t, u)
  {
    hide BootRun;
    BootRunInv(size, meta, auto, trace, acts, k);
    u := DeadlockFree(trace[k], t);
  }

  /** In every state of every run a task is queued exactly as its state says, and a sender is
      blocked exactly when one slot, and no other, holds its message. */
  lemma RunTables(size: nat, meta: seq<Meta>, auto: seq<bool>, trace: seq<State>, acts: seq<Action>, k: nat, t: nat)
    requires BootRun(size, meta, auto, trace, acts) && k < |trace| && !trace[k].panicked && t < trace[k].N()
    ensures var s := trace[k];
            && WF(s)
            && Copies(s.sched, t) == (if t < s.Users() && s.started[t] && s.st[t] == Ready then 1 else 0)
            && (s.st[t] == IpcSendBlocked <==> exists d :: 0 <= d < s.N() && s.ipcs[d][t] != 0)
            && (forall d, e :: 0 <= d < s.N() && 0 <= e < s.N() && s.ipcs[d][t] != 0 && s.ipcs[e][t] != 0 ==> d == e)
  {
    hide BootRun, Inv;
    BootRunInv(size, meta, auto, trace, acts, k);
    InvShape(trace[k]);
    ReadyIffQueued(trace[k], t);
    OneSlotPerSender(trace[k], t);
  }

  /** No wake-up is lost: a task waits for events only while none of the kinds it asked for is
      pending. */
  lemma RunNoLostWakeUp(size: nat, meta: seq<Meta>, auto: seq<bool>, trace: seq<State>, acts: seq<Action>, k: nat,
                        t: nat)
    requires BootRun(size, meta, auto, trace, acts) && k < |trace| && !trace[k].panicked
    requires t < |trace[k].st| && trace[k].st[t] == WaitForEvent
    ensures var s := trace[k];
            && WF(s)
            && (Wants(s.mask[t], EVENT_SIGNAL) ==> forall x :: 0 <= x < s.N() ==> s.sigs[t][x] == 0)
            && (Wants(s.mask[t], EVENT_IRQ) ==> Contents(s.ints[t]) == [])
            && (Wants(s.mask[t], EVENT_DMA) ==> Contents(s.dmas[t]) == [])
            && (Wants(s.mask[t], EVENT_IPC) ==> forall x :: 0 <= x < s.N() ==> s.ipcs[t][x] == 0)
  {
    hide BootRun;
    BootRunInv(size, meta, auto, trace, acts, k);
    assert NothingPending(trace[k], t, trace[k].mask[t]);
  }

  /** The running task is ready and its return value is never NON_SENSE; a task has at most one
      delayed job, and then it waits or an alarm took it out of its wait. */
  lemma RunReturnsAndDelays(size: nat, meta: seq<Meta>, auto: seq<bool>, trace: seq<State>, acts: seq<Action>, k: nat,
                            t: nat)
    requires BootRun(size, meta, auto, trace, acts) && k < |trace| && !trace[k].panicked && t < trace[k].N()
    ensures var s := trace[k];
            && WF(s) && s.ret[Current(s)] != Some(NonSense) && s.st[Current(s)] == Ready
            && Count(s.delays, t) <= 1
            && (Count(s.delays, t) == 1 ==> Waiting(s.st[t]) || Held(s, t))
            && (s.st[t] == Sleeping || s.st[t] == SleepingDeep ==> Count(s.delays, t) == 1)
  {
    hide BootRun;
    BootRunInv(size, meta, auto, trace, acts, k);
    RunnerReady(trace[k]);
    CountHolds(trace[k].delays, t);
  }

  /** A run in which no alarm hits a waiting task never panics, and in it a delayed job is always
      that of a task that waits. */
  lemma RunCalmlyWaits(size: nat, meta: seq<Meta>, auto: seq<bool>, trace: seq<State>, acts: seq<Action>, k: nat,
                       t: nat)
    requires BootRun(size, meta, auto, trace, acts) && |trace| == |acts| + 1 && k <= |acts|
    requires NoMisfire(trace, acts, k) && t < trace[k].N()
    ensures !trace[k].panicked && WF(trace[k]) && !Held(trace[k], t)
    ensures Count(trace[k].delays, t) == 1 ==> Waiting(trace[k].st[t])
  {
    hide NoMisfire, Boot, IsRun;
    BootRunKeeps(size, meta, auto, trace, acts, 0);
    RunCalm(trace, acts, k);
    InvCalm(trace[k]);
    RunReturnsAndDelays(size, meta, auto, trace, acts, k, t);
  }
}
