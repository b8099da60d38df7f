/** Waiting for events, starting tasks, alarms and the handler's exit keep the invariant. */
module EventProofs {
  import opened Slots
  import opened Rings
  import opened Exchange
  import opened IpcGraph
  import opened Rrmq
  import opened KernelSpec
  import opened Invariants
  import opened GateProofs

  // ---- Consuming a pending event ---------------------------------------------------------------------------

  /** Only the running task's mailbox and area change, and it is not waiting. */
  lemma ConsumeKeeps(s: State, q: State)
    requires Steady(s) && WF(q)
    requires q == s.(sigs := q.sigs, ints := q.ints, dmas := q.dmas, exch := q.exch,
                     ret := s.ret[Current(s) := Some(Ok)])
    requires SigInv(q.sigs)
    requires forall u :: 0 <= u < s.N() && u != Current(s) ==>
               q.sigs[u] == s.sigs[u] && q.ints[u] == s.ints[u] && q.dmas[u] == s.dmas[u]
    ensures Inv(q)
  {
    RunnerReady(s);
    NoDelayWhenReady(s.delays, s.st, s.ret, Current(s));
    forall u | 0 <= u < q.N() && q.st[u] == WaitForEvent ensures NothingPending(q, u, q.mask[u]) {
      assert NothingPending(s, u, s.mask[u]);
    }
  }

  lemma TakeSigKeeps(s: State, src: nat)
    requires Steady(s) && src < s.N()
    ensures Inv(TakeSig(s, Current(s), src))
  {
    SigInvPut(s.sigs, Current(s), src, 0);
    ConsumeKeeps(s, TakeSig(s, Current(s), src));
  }

  lemma TakeIntKeeps(s: State, devh: nat)
    requires Steady(s)
    ensures Inv(TakeInt(s, Current(s), devh))
  {
    ConsumeKeeps(s, TakeInt(s, Current(s), devh));
  }

  lemma TakeDmaKeeps(s: State)
    requires Steady(s)
    ensures Inv(TakeDma(s, Current(s)))
  {
    ConsumeKeeps(s, TakeDma(s, Current(s)));
  }

  /** The state after a delivery, spelled out: the sender is released and its slot cleared. */
  ghost function Delivered(s: State, t: nat, src: nat): State
    requires WF(s) && t < s.N() && src < s.N()
  {
    s.(exch := s.exch[t := WriteEvent(s.exch[t], 1, s.meta[src].handle, Payload(s, t, src))],
       ret := s.ret[src := Some(Ok)][t := Some(Ok)], st := s.st[src := Ready],
       ipcs := Put(s.ipcs, t, src, 0),
       sched := s.sched.WithActive(Insert(s.sched.Active(), src, s.meta[src])))
  }

  lemma SenderBlocked(s: State, src: nat)
    requires Inv(s) && src < s.N() && s.ipcs[Current(s)][src] != 0
    ensures s.st[src] == IpcSendBlocked && s.sentTo[src] == Current(s) && src != Current(s)
    ensures s.sched.current.Some? ==> src != s.sched.Running(0)
  {
    RunnerReady(s);
  }

  lemma TakeIpcEffect(s: State, src: nat)
    requires Inv(s) && src < s.N() && s.ipcs[Current(s)][src] != 0
    ensures TakeIpc(s, Current(s), src) == Delivered(s, Current(s), src)
  {
    SenderBlocked(s, src);
    ReadyUp(s.sched, s.size, s.meta, s.st, s.started, src);
  }

  lemma SlotInvRead(ipcs: seq<seq<nat>>, st: seq<JobState>, sentTo: seq<nat>, t: nat, src: nat)
    requires SlotInv(ipcs, st, sentTo) && t < |st| && src < |st| && ipcs[t][src] != 0
    ensures SlotInv(Put(ipcs, t, src, 0), st[src := Ready], sentTo)
  {
    var next, sts := Put(ipcs, t, src, 0), st[src := Ready];
    assert sentTo[src] == t;
    forall d, x | 0 <= d < |st| && 0 <= x < |st|
      ensures next[d][x] != 0 <==> sts[x] == IpcSendBlocked && sentTo[x] == d
    {
      assert ipcs[d][x] != 0 <==> st[x] == IpcSendBlocked && sentTo[x] == d;
    }
  }

  lemma GraphInvRead(ipcs: seq<seq<nat>>, t: nat, src: nat)
    requires GraphInv(ipcs) && t < |ipcs| && src < |ipcs|
    ensures GraphInv(Put(ipcs, t, src, 0))
  {
    FewerEdgesAcyclic(ipcs, Put(ipcs, t, src, 0));
  }

  lemma DelayInvReady(delays: seq<DelayCell>, st: seq<JobState>, ret: seq<Option<Status>>, t: nat, r: Option<Status>)
    requires DelayInv(delays, st, ret) && t < |st| && !Waiting(st[t]) && !IsHeld(st[t], ret[t])
    ensures DelayInv(delays, st[t := Ready], ret[t := r])
  {
    NoDelayWhenReady(delays, st, ret, t);
  }

  lemma DeliveredShape(s: State, src: nat)
    requires Inv(s) && src < s.N() && s.ipcs[Current(s)][src] != 0
    ensures WF(Delivered(s, Current(s), src))
  {
    hide TakeIpc;
    TakeIpcEffect(s, src);
  }

  lemma DeliveredColumns(s: State, src: nat)
    requires Steady(s) && src < s.N() && s.ipcs[Current(s)][src] != 0
    ensures var q := Delivered(s, Current(s), src);
            DelayInv(q.delays, q.st, q.ret) && RetInv(q.st, q.ret) && Dormant(q.st, q.started)
  {
    SenderBlocked(s, src);
    RunnerReady(s);
    hide SchedInv, DelayInv, RetInv, Dormant;
    var t := Current(s);
    ReadyColumns(s.st, s.started, s.ret, src, Ok);
    ReadyColumns(s.st[src := Ready], s.started, s.ret[src := Some(Ok)], t, Ok);
    assert s.st[src := Ready][t := Ready] == s.st[src := Ready];
    DelayInvReady(s.delays, s.st, s.ret, src, Some(Ok));
    DelayInvReady(s.delays, s.st[src := Ready], s.ret[src := Some(Ok)], t, Some(Ok));
  }

  lemma DeliveredCore(s: State, src: nat)
    requires Steady(s) && src < s.N() && s.ipcs[Current(s)][src] != 0
    ensures var q := Delivered(s, Current(s), src);
            Core(q) && Current(q) == Current(s) && Settled(q)
  {
    SenderBlocked(s, src);
    hide SchedInv, Mail, WakeInv, DelayInv, RetInv, Dormant;
    DeliveredShape(s, src);
    DeliveredColumns(s, src);
    ReadyUp(s.sched, s.size, s.meta, s.st, s.started, src);
  }

  lemma TakeIpcKeeps(s: State, src: nat)
    requires Steady(s) && src < s.N() && s.ipcs[Current(s)][src] != 0
    ensures Inv(TakeIpc(s, Current(s), src))
  {
    var t, q := Current(s), Delivered(s, Current(s), src);
    TakeIpcEffect(s, src);
    DeliveredCore(s, src);
    SenderBlocked(s, src);
    SlotInvRead(s.ipcs, s.st, s.sentTo, t, src);
    GraphInvRead(s.ipcs, t, src);
    DeliveredWake(s, q, src);
  }

  lemma DeliveredWake(s: State, q: State, src: nat)
    requires WF(s) && WakeInv(s) && WF(q) && src < s.N() && q.N() == s.N()
    requires q.st == s.st[src := Ready] && q.mask == s.mask && q.ipcs == Put(s.ipcs, Current(s), src, 0)
    requires q.sigs == s.sigs && q.ints == s.ints && q.dmas == s.dmas
    ensures WakeInv(q)
  {
    forall u | 0 <= u < q.N() && q.st[u] == WaitForEvent ensures NothingPending(q, u, q.mask[u]) {
      assert NothingPending(s, u, s.mask[u]);
      if RowEmpty(s.ipcs, u) {
        RowEmptyPut(s.ipcs, Current(s), src, 0, u);
      }
    }
  }

  // ---- Waiting ------------------------------------------------------------------------------------------------

  /** The gate found nothing to deliver. */
  predicate NothingToTake(s: State, mask: bv8)
    requires WF(s)
  {
    var c, n := Current(s), s.N();
    && (Wants(mask, EVENT_SIGNAL) ==> FirstPending(s.sigs[c], n, 0) == n)
    && (Wants(mask, EVENT_IRQ) ==> IsEmpty(s.ints[c]))
    && (Wants(mask, EVENT_DMA) ==> IsEmpty(s.dmas[c]))
    && (Wants(mask, EVENT_IPC) ==> FirstPending(s.ipcs[c], n, 0) == n)
  }

  lemma EmptyMailbox(s: State, mask: bv8)
    requires Inv(s) && NothingToTake(s, mask)
    ensures NothingPending(s, Current(s), mask)
  {
    var c, n := Current(s), s.N();
    if Wants(mask, EVENT_SIGNAL) {
      assert forall x :: 0 <= x < n ==> s.sigs[c][x] % 256 == 0 && s.sigs[c][x] <= SIGNAL_USR2;
    }
    if Wants(mask, EVENT_IPC) {
      assert forall x :: 0 <= x < n ==> s.ipcs[c][x] % 256 == 0 && s.ipcs[c][x] <= MAX_PAYLOAD;
    }
  }

  /** The gate finds nothing exactly when nothing it was asked for is pending. */
  lemma NothingFound(s: State, mask: bv8)
    requires Inv(s)
    ensures NothingToTake(s, mask) <==> NothingPending(s, Current(s), mask)
  {
    if NothingToTake(s, mask) {
      EmptyMailbox(s, mask);
    }
  }

  ghost function WaitingState(s: State, mask: bv8, timeout: int): (q: State)
    requires WF(s)
    ensures WF(q)
  {
    var c := Current(s);
    var d := if timeout > 0 then DelayAdd(s, c, timeout) else s;
    SetRet(SetState(d, c, WaitForEvent), c, NonSense).(mask := s.mask[c := mask])
  }

  lemma WaitingDelays(s: State, mask: bv8, timeout: int)
    requires Steady(s) && s.sched.current.Some?
    ensures var q := WaitingState(s, mask, timeout); DelayInv(q.delays, q.st, q.ret)
  {
    RunnerReady(s);
    if timeout > 0 {
      DelayRoom(s);
      DelayInvAdd(s.delays, s.st, s.ret, Current(s), timeout, WaitForEvent, Some(NonSense));
    } else {
      DelayInvBlock(s.delays, s.st, s.ret, Current(s), WaitForEvent, Some(NonSense));
    }
  }

  lemma WaitingMid(s: State, mask: bv8, timeout: int)
    requires Steady(s) && s.sched.current.Some? && NothingToTake(s, mask)
    ensures Mid(WaitingState(s, mask, timeout))
  {
    var c, q := Current(s), WaitingState(s, mask, timeout);
    RunnerReady(s);
    WaitingDelays(s, mask, timeout);
    BlockCore(s, q, WaitForEvent, Some(NonSense));
    SlotInvOther(s.ipcs, s.st, s.sentTo, c, WaitForEvent);
    EmptyMailbox(s, mask);
    forall u | 0 <= u < q.N() && q.st[u] == WaitForEvent ensures NothingPending(q, u, q.mask[u]) {
      assert NothingPending(s, u, if u == c then mask else s.mask[u]);
    }
  }

  lemma WaitEventKeeps(s: State, mask: bv8, timeout: int, devh: nat)
    requires Steady(s) && s.sched.current.Some?
    ensures Inv(WaitEvent(s, mask, timeout, devh))
  {
    hide Inv, TakeSig, TakeInt, TakeDma, TakeIpc, Elect, Mid;
    InvShape(s);
    var c, n := Current(s), s.N();
    var sig, ipc := FirstPending(s.sigs[c], n, 0), FirstPending(s.ipcs[c], n, 0);
    if NothingToTake(s, mask) {
      if timeout == -1 {
        SetRetKeeps(s, Again);
      } else {
        WaitingMid(s, mask, timeout);
        ElectMid(WaitingState(s, mask, timeout));
      }
    } else if Wants(mask, EVENT_SIGNAL) && sig < n {
      TakeSigKeeps(s, sig);
    } else if Wants(mask, EVENT_IRQ) && !IsEmpty(s.ints[c]) {
      TakeIntKeeps(s, devh);
    } else if Wants(mask, EVENT_DMA) && !IsEmpty(s.dmas[c]) {
      TakeDmaKeeps(s);
    } else {
      TakeIpcKeeps(s, ipc);
    }
  }

  // ---- Start and alarms ---------------------------------------------------------------------------------------------

  lemma StartSched(sc: Sched, size: nat, meta: seq<Meta>, st: seq<JobState>, started: seq<bool>, t: nat)
    requires SchedInv(sc, size, meta, st, started) && Dormant(st, started) && MetaOk(meta)
    requires t < |st| - 1 && !started[t] && BlockedRunner(sc, st) == None
    ensures !Holds(sc.Active().cells, t) && sc.Active().num <= size
    ensures var r := sc.WithActive(Insert(sc.Active(), t, meta[t]));
            && SchedInv(r, size, meta, st, started[t := true]) && Dormant(st, started[t := true])
            && BlockedRunner(r, st) == None && r.Running(0) == sc.Running(0) && r.current == sc.current
            && (sc.current.Some? ==> r.Active().cells[sc.current.value] == sc.Active().cells[sc.current.value])
  {
    var ready := ReadySet(st, started);
    assert ReadySet(st, started[t := true]) == ready + {t};
    InsertKeeps(sc, size, meta, |meta| - 1, ready, None, t);
    InsertQuanta(sc.Active(), t, meta[t]);
    if sc.current.Some? {
      RunnerKnown(sc, size, meta, st, started);
    }
  }

  ghost function StartedState(s: State, t: nat): State
    requires WF(s) && t < s.N()
  {
    s.(sched := s.sched.WithActive(Insert(s.sched.Active(), t, s.meta[t])), started := s.started[t := true])
  }

  lemma StartEffect(s: State, target: nat)
    requires Inv(s) && target < s.Users() && !s.started[target]
    ensures WF(StartedState(s, target))
    ensures Start(s, target, true) == SetRet(StartedState(s, target), Current(s), Ok)
  {
    hide SchedInv, Mail, WakeInv, DelayInv, RetInv;
    StartSched(s.sched, s.size, s.meta, s.st, s.started, target);
  }

  lemma StartedInv(s: State, target: nat)
    requires Inv(s) && target < s.Users() && !s.started[target]
    ensures Inv(StartedState(s, target)) && Current(StartedState(s, target)) == Current(s)
  {
    StartEffect(s, target);
    StartSched(s.sched, s.size, s.meta, s.st, s.started, target);
    var q := StartedState(s, target);
    assert forall u, m :: 0 <= u < s.N() && NothingPending(s, u, m) ==> NothingPending(q, u, m);
  }

  lemma StartKeeps(s: State, target: nat, allowed: bool)
    requires Steady(s)
    requires allowed && target < s.N() ==> target < s.Users() && !s.started[target]
    ensures Inv(Start(s, target, allowed))
  {
    if !allowed {
      SetRetKeeps(s, Denied);
    } else if target >= s.N() {
      SetRetKeeps(s, Invalid);
    } else {
      StartEffect(s, target);
      StartedInv(s, target);
      SetRetKeeps(StartedState(s, target), Ok);
    }
  }

  lemma SetAlarmKeeps(s: State, ms: nat, periodic: bool)
    requires Steady(s)
    ensures Inv(SetAlarm(s, ms, periodic))
  {
    if !AlarmHasRoom(s) {
      SetRetKeeps(s, Busy);
    } else {
      var c := Slot(true, Current(s), AlarmData(SIGNAL_ALARM, ms, ms, periodic));
      var alarms := s.alarms[FirstFree(s.alarms) := c];
      AlarmsOnly(s, alarms);
      SetRetKeeps(s.(alarms := alarms), Ok);
    }
  }

  lemma StopAlarmKeeps(s: State, ms: nat)
    requires Steady(s)
    ensures Inv(StopAlarm(s, ms))
  {
    var i := FirstAlarm(s.alarms, Current(s), ms, 0);
    if i == |s.alarms| {
      SetRetKeeps(s, NoEntity);
    } else {
      var alarms := s.alarms[i := s.alarms[i].(active := false)];
      AlarmsOnly(s, alarms);
      SetRetKeeps(s.(alarms := alarms), Ok);
    }
  }

  lemma WriteKeeps(s: State, data: seq<byte>)
    requires Inv(s)
    ensures Inv(Gate(s, DoWrite(data)))
  {
    var q := Gate(s, DoWrite(data));
    assert forall u, m :: 0 <= u < s.N() && NothingPending(s, u, m) ==> NothingPending(q, u, m);
  }

  // ---- Handler exit ------------------------------------------------------------------------------------------------

  /** The handler takes the return value from the task it resumes, unless that task is held: then
      it panics. */
  lemma HandOffKeeps(s: State)
    requires Inv(s)
    ensures Clear(s) ==> Steady(HandOff(s)) && HandOff(s) == s.(ret := s.ret[Current(s) := None])
    ensures !Clear(s) ==> HandOff(s) == Panic(s)
  {
    RunnerReady(s);
    assert s.ret[Current(s) := s.ret[Current(s)]] == s.ret;
    if Clear(s) {
      ElectedRet(s, Current(s), None);
    }
  }
}
