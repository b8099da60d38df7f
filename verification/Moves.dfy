/** The shape of a step other than the tick: the running task may leave READY, at most one
    other task becomes ready, and at most one election follows. */
module Moves {
  import opened Slots
  import opened Rings
  import opened Exchange
  import opened IpcGraph
  import opened Rrmq
  import opened KernelSpec
  import opened Invariants
  import opened GateProofs
  import opened EventProofs
  import opened TickProofs
  import opened Protocol

  /** The sender whose message a wait delivers, if it delivers one. */
  function TakesIpc(s: State, mask: bv8): (r: Option<nat>)
    requires WF(s)
    ensures r.Some? ==> r.value < s.N() && s.ipcs[Current(s)][r.value] % 256 > 0
  {
    var c, n := Current(s), s.N();
    var k := FirstPending(s.ipcs[c], n, 0);
    if Wants(mask, EVENT_SIGNAL) && FirstPending(s.sigs[c], n, 0) < n then None
    else if Wants(mask, EVENT_IRQ) && !IsEmpty(s.ints[c]) then None
    else if Wants(mask, EVENT_DMA) && !IsEmpty(s.dmas[c]) then None
    else if Wants(mask, EVENT_IPC) && k < n then Some(k)
    else None
  }

  /** The state the running task takes. */
  ghost function NewState(s: State, a: Action): JobState
    requires WF(s)
  {
    match a
    case DoSendIpc(target, len) =>
      if SendRefused(s, target, len) || target == Current(s) then Ready else IpcSendBlocked
    case DoWaitEvent(mask, timeout, _) => if NothingToTake(s, mask) && timeout != -1 then WaitForEvent else Ready
    case DoSleep(_, mode) =>
      if mode > SLEEP_MODE_DEEP then Ready else if mode == SLEEP_MODE_DEEP then SleepingDeep else Sleeping
    case DoExit(result) => if result != 0 then Aborting else Finished
    case DoFault => Fault
    case _ => Ready
  }

  /** The other task the step makes ready. */
  ghost function Rouses(s: State, a: Action): (r: Option<nat>)
    requires WF(s) && Legal(s, a)
    ensures r.Some? ==> r.value < s.N()
  {
    match a
    case DoSendIpc(target, len) =>
      if !SendRefused(s, target, len) && target != Current(s) && Wakeable(s.st[target]) then Some(target) else None
    case DoSendSignal(target, sig) =>
      if !SignalRefused(s, target, sig) && Wakeable(s.st[target]) then Some(target) else None
    case DoWaitEvent(mask, _, _) => TakesIpc(s, mask)
    case DoIrq(owner, _) => if Wakeable(s.st[owner]) then Some(owner) else None
    case DoDma(owner, _) => if Wakeable(s.st[owner]) then Some(owner) else None
    case DoStart(target, allowed) => if allowed && target < s.N() then Some(target) else None
    case _ => None
  }

  ghost predicate Elects(s: State, a: Action)
    requires WF(s)
  {
    a.DoYield? || NewState(s, a) != Ready
  }

  function Enqueue(sc: Sched, meta: seq<Meta>, t: Option<nat>): (r: Sched)
    requires sc.Shaped(|sc.primary.cells|) && (t.Some? ==> t.value < |meta|)
    ensures r.Shaped(|sc.primary.cells|)
  {
    if t.None? then sc else sc.WithActive(Insert(sc.Active(), t.value, meta[t.value]))
  }

  /** The step as a scheduler sees it. */
  ghost predicate Moved(s: State, a: Action, q: State)
    requires WF(s) && Legal(s, a)
  {
    var c, t := Current(s), Rouses(s, a);
    var st := s.st[c := NewState(s, a)];
    var sc := Enqueue(s.sched, s.meta, t);
    && q.st == (if t.None? then st else st[t.value := Ready])
    && (Elects(s, a) ==> sc.current.Some? ==> sc.Running(0) < |s.meta|)
    && q.sched == (if Elects(s, a) then ElectSched(sc, s.meta, a.DoYield?) else sc)
    && q.started == (if a.DoStart? && t.Some? then s.started[t.value := true] else s.started)
    && q.meta == s.meta && q.size == s.size
  }

  lemma RousesBlocked(s: State, a: Action)
    requires Inv(s) && Legal(s, a) && !a.DoTick? && Rouses(s, a).Some?
    ensures var w := Rouses(s, a).value;
            w != Current(s) && if a.DoStart? then w < s.Users() && !s.started[w] else s.st[w] != Ready
  {
    RunnerReady(s);
    if a.DoWaitEvent? {
      SenderBlocked(s, Rouses(s, a).value);
    }
  }

  lemma ElectFrame(s: State)
    requires Core(s)
    ensures Elect(s) == s.(sched := ElectSched(s.sched, s.meta, s.st[Current(s)] == Ready))
  {
    ElectSchedInv(s.sched, s.size, s.meta, s.st, s.started, s.st[Current(s)] == Ready);
  }

  lemma SameState(s: State)
    requires Steady(s)
    ensures s.st[Current(s) := Ready] == s.st
  {
    RunnerReady(s);
  }

  /** The running task leaves READY, another may have been made ready, then the election. */
  lemma MovedLeave(s: State, a: Action, q: State)
    requires Steady(s) && s.sched.current.Some? && Legal(s, a) && Core(q) && Current(q) == Current(s)
    requires NewState(s, a) != Ready && !a.DoYield? && !a.DoStart? && Rouses(s, a) != Some(Current(s))
    requires var st, t := s.st[Current(s) := NewState(s, a)], Rouses(s, a);
             q.st == (if t.None? then st else st[t.value := Ready]) && q.sched == Enqueue(s.sched, s.meta, t)
    requires q.started == s.started && q.meta == s.meta && q.size == s.size && q.st[Current(s)] != Ready
    ensures Moved(s, a, Elect(q))
  {
    ElectFrame(q);
  }

  /** The state of an accepted send just before its election. */
  lemma BeforeElection(s: State, target: nat, len: nat) returns (p: State)
    requires Steady(s) && s.sched.current.Some? && !SendRefused(s, target, len) && target != Current(s) && len >= 1
    ensures Core(p) && SendIpc(s, target, len) == Elect(p)
    ensures var wakes := Wakeable(s.st[target]);
            && p.st == (if wakes then s.st[Current(s) := IpcSendBlocked][target := Ready]
                        else s.st[Current(s) := IpcSendBlocked])
            && p.sched == Enqueue(s.sched, s.meta, if wakes then Some(target) else None)
            && p.started == s.started && p.meta == s.meta && p.size == s.size && Current(p) == Current(s)
  {
    SendAccepted(s, target, len);
    SentMid(s, target, len);
    var b := SentState(s, target, len);
    p := b;
    if Wakeable(b.st[target]) {
      WakeCore(b, target, Intr);
      p := Woken(b, target, Intr);
    }
  }

  lemma MovedSent(s: State, target: nat, len: nat)
    requires Steady(s) && s.sched.current.Some? && !SendRefused(s, target, len) && target != Current(s) && len >= 1
    ensures Moved(s, DoSendIpc(target, len), SendIpc(s, target, len))
  {
    hide Inv, SendIpc, Elect, Reaches;
    InvShape(s);
    var p := BeforeElection(s, target, len);
    MovedLeave(s, DoSendIpc(target, len), p);
  }

  lemma MovedSend(s: State, target: nat, len: nat)
    requires Steady(s) && s.sched.current.Some? && Legal(s, DoSendIpc(target, len))
    ensures Moved(s, DoSendIpc(target, len), SendIpc(s, target, len))
  {
    SameState(s);
    if SendRefused(s, target, len) {
      SendRefusal(s, target, len);
    } else if target == Current(s) {
      SendAccepted(s, target, len);
    } else {
      MovedSent(s, target, len);
    }
  }

  lemma MovedSignal(s: State, target: nat, sig: nat)
    requires Steady(s) && s.sched.current.Some?
    ensures Moved(s, DoSendSignal(target, sig), SendSignal(s, target, sig))
  {
    SameState(s);
    RunnerReady(s);
    if !SignalRefused(s, target, sig) {
      SignalAccepted(s, target, sig);
      var p := StoreSig(s, sig, Current(s), target);
      StoredExcept(s, target, Current(s), sig);
      if Wakeable(p.st[target]) {
        WakeCore(p, target, Intr);
      }
    }
  }

  lemma MovedIrq(s: State, owner: nat, irqn: nat)
    requires Steady(s) && Legal(s, DoIrq(owner, irqn))
    ensures Moved(s, DoIrq(owner, irqn), Irq(s, owner, irqn))
  {
    SameState(s);
    RunnerReady(s);
    if Wakeable(s.st[owner]) {
      WakeCore(s.(ints := s.ints[owner := Push(s.ints[owner], irqn)]), owner, Intr);
    }
  }

  lemma MovedDma(s: State, owner: nat, e: DmaEvent)
    requires Steady(s) && Legal(s, DoDma(owner, e))
    ensures Moved(s, DoDma(owner, e), Dma(s, owner, e))
  {
    SameState(s);
    RunnerReady(s);
    if Wakeable(s.st[owner]) {
      WakeCore(s.(dmas := s.dmas[owner := Push(s.dmas[owner], e)]), owner, Intr);
    }
  }

  lemma MovedSleep(s: State, ms: nat, mode: nat)
    requires Steady(s) && s.sched.current.Some?
    ensures Moved(s, DoSleep(ms, mode), Sleep(s, ms, mode))
  {
    hide Inv, Moved, Sleep;
    if mode <= SLEEP_MODE_DEEP {
      MovedAsleep(s, ms, mode);
    } else {
      MovedAwake(s, ms, mode);
    }
  }

  lemma MovedAwake(s: State, ms: nat, mode: nat)
    requires Steady(s) && mode > SLEEP_MODE_DEEP
    ensures Moved(s, DoSleep(ms, mode), Sleep(s, ms, mode))
  {
    SameState(s);
    InvShape(s);
    hide Inv;
  }

  lemma MovedAsleep(s: State, ms: nat, mode: nat)
    requires Steady(s) && s.sched.current.Some? && mode <= SLEEP_MODE_DEEP
    ensures Moved(s, DoSleep(ms, mode), Sleep(s, ms, mode))
  {
    DelayRoom(s);
    hide Inv, Elect, Core, Moved, FirstFree;
    InvShape(s);
    var c, j := Current(s), if mode == SLEEP_MODE_DEEP then SleepingDeep else Sleeping;
    var q := SetRet(SetState(DelayAdd(s, c, ms), c, j), c, NonSense);
    AsleepCore(s, ms, j);
    MovedLeave(s, DoSleep(ms, mode), q);
  }

  lemma AsleepCore(s: State, ms: nat, j: JobState)
    requires Steady(s) && s.sched.current.Some? && DelayHasRoom(s) && (j == Sleeping || j == SleepingDeep)
    ensures Core(SetRet(SetState(DelayAdd(s, Current(s), ms), Current(s), j), Current(s), NonSense))
  {
    RunnerReady(s);
    hide SchedInv, Mail, WakeInv, RetInv, Dormant, Count;
    var c := Current(s);
    DelayInvAdd(s.delays, s.st, s.ret, c, ms, j, Some(NonSense));
    BlockCore(s, SetRet(SetState(DelayAdd(s, c, ms), c, j), c, NonSense), j, Some(NonSense));
  }

  lemma MovedExit(s: State, result: nat)
    requires Steady(s) && s.sched.current.Some?
    ensures Moved(s, DoExit(result), Exit(s, result))
  {
    RunnerReady(s);
    var c, j := Current(s), if result != 0 then Aborting else Finished;
    var q := s.(code := s.code[c := result], st := s.st[c := j], ret := s.ret[c := Some(NonSense)]);
    DelayInvBlock(s.delays, s.st, s.ret, c, j, Some(NonSense));
    BlockCore(s, q, j, Some(NonSense));
    MovedLeave(s, DoExit(result), q);
  }

  lemma MovedFault(s: State)
    requires Steady(s) && s.sched.current.Some?
    ensures Moved(s, DoFault, UserFault(s))
  {
    RunnerReady(s);
    var c, q := Current(s), SetState(s, Current(s), Fault);
    assert q.ret == s.ret[c := q.ret[c]];
    DelayInvBlock(s.delays, s.st, s.ret, c, Fault, s.ret[c]);
    BlockCore(s, q, Fault, q.ret[c]);
    MovedLeave(s, DoFault, q);
  }

  lemma MovedYield(s: State)
    requires Steady(s)
    ensures Moved(s, DoYield, Yield(s))
  {
    SameState(s);
    RunnerReady(s);
    ElectFrame(s);
  }

  lemma WaitTakes(s: State, mask: bv8, timeout: int, devh: nat)
    requires WF(s) && TakesIpc(s, mask).Some?
    ensures WaitEvent(s, mask, timeout, devh) == TakeIpc(s, Current(s), TakesIpc(s, mask).value)
    ensures !NothingToTake(s, mask)
  {
  }

  /** A signal, an interrupt or a DMA event is delivered, or the caller does not want to wait. */
  lemma WaitStays(s: State, mask: bv8, timeout: int, devh: nat)
    requires WF(s) && TakesIpc(s, mask).None? && (!NothingToTake(s, mask) || timeout == -1)
    ensures var q := WaitEvent(s, mask, timeout, devh);
            q == s.(sigs := q.sigs, ints := q.ints, dmas := q.dmas, ret := q.ret, exch := q.exch)
    ensures forall t :: 0 <= t < s.N() && (t != Current(s) || NothingToTake(s, mask)) ==>
              WaitEvent(s, mask, timeout, devh).exch[t] == s.exch[t]
  {
  }

  lemma TakesPending(s: State, mask: bv8)
    requires WF(s) && TakesIpc(s, mask).Some?
    ensures TakesIpc(s, mask).value < s.N() && s.ipcs[Current(s)][TakesIpc(s, mask).value] != 0
  {
  }

  lemma MovedTake(s: State, mask: bv8, timeout: int, devh: nat)
    requires Steady(s) && TakesIpc(s, mask).Some?
    ensures Moved(s, DoWaitEvent(mask, timeout, devh), WaitEvent(s, mask, timeout, devh))
  {
    hide WaitEvent, TakeIpc, Inv, TakesIpc, NothingToTake;
    InvShape(s);
    SameState(s);
    WaitTakes(s, mask, timeout, devh);
    TakesPending(s, mask);
    TakeIpcEffect(s, TakesIpc(s, mask).value);
  }

  lemma MovedStay(s: State, mask: bv8, timeout: int, devh: nat)
    requires Steady(s) && TakesIpc(s, mask).None? && (!NothingToTake(s, mask) || timeout == -1)
    ensures Moved(s, DoWaitEvent(mask, timeout, devh), WaitEvent(s, mask, timeout, devh))
  {
    SameState(s);
    WaitStays(s, mask, timeout, devh);
    hide WaitEvent;
  }

  lemma WaitParks(s: State, mask: bv8, timeout: int, devh: nat)
    requires WF(s) && NothingToTake(s, mask) && timeout != -1
    ensures WaitEvent(s, mask, timeout, devh) == Elect(WaitingState(s, mask, timeout))
    ensures TakesIpc(s, mask).None?
  {
  }

  lemma ParkedState(s: State, mask: bv8, timeout: int)
    requires WF(s)
    ensures var q := WaitingState(s, mask, timeout);
            && q.st == s.st[Current(s) := WaitForEvent] && q.sched == s.sched && q.started == s.started
            && q.meta == s.meta && q.size == s.size && Current(q) == Current(s)
  {
  }

  lemma MovedPark(s: State, mask: bv8, timeout: int, devh: nat)
    requires Steady(s) && s.sched.current.Some? && NothingToTake(s, mask) && timeout != -1
    ensures Moved(s, DoWaitEvent(mask, timeout, devh), WaitEvent(s, mask, timeout, devh))
  {
    WaitParks(s, mask, timeout, devh);
    hide WaitEvent, Inv, Core, Mail, WakeInv, NothingToTake, Elect;
    InvShape(s);
    WaitingMid(s, mask, timeout);
    ParkedState(s, mask, timeout);
    MovedLeave(s, DoWaitEvent(mask, timeout, devh), WaitingState(s, mask, timeout));
  }

  lemma MovedWait(s: State, mask: bv8, timeout: int, devh: nat)
    requires Steady(s) && s.sched.current.Some?
    ensures Moved(s, DoWaitEvent(mask, timeout, devh), WaitEvent(s, mask, timeout, devh))
  {
    if TakesIpc(s, mask).Some? {
      MovedTake(s, mask, timeout, devh);
    } else if NothingToTake(s, mask) && timeout != -1 {
      MovedPark(s, mask, timeout, devh);
    } else {
      MovedStay(s, mask, timeout, devh);
    }
  }

  lemma MovedStart(s: State, target: nat, allowed: bool)
    requires Steady(s) && Legal(s, DoStart(target, allowed))
    ensures Moved(s, DoStart(target, allowed), Start(s, target, allowed))
  {
    SameState(s);
    if allowed && target < s.N() {
      StartEffect(s, target);
      assert s.st[target := Ready] == s.st;
    }
  }

  /** Every gate other than the tick has this shape. */
  lemma MovedGate(s: State, a: Action)
    requires Steady(s) && EnvOk(s, a) && Legal(s, a) && !a.DoTick?
    ensures Moved(s, a, Gate(s, a))
  {
    hide Inv, Moved, Legal, SendIpc, SendSignal, WaitEvent, Sleep, Exit, Yield, UserFault, Start;
    hide SetAlarm, StopAlarm, Irq, Dma;
    match a
    case DoSendIpc(target, len) => MovedSend(s, target, len);
    case DoSendSignal(target, sig) => MovedSignal(s, target, sig);
    case DoWaitEvent(mask, timeout, devh) => MovedWait(s, mask, timeout, devh);
    case DoSleep(ms, mode) => MovedSleep(s, ms, mode);
    case DoIrq(owner, irqn) => MovedIrq(s, owner, irqn);
    case DoDma(owner, event) => MovedDma(s, owner, event);
    case _ => MovedOther(s, a);
  }

  lemma MovedOther(s: State, a: Action)
    requires Steady(s) && EnvOk(s, a) && Legal(s, a)
    requires a.DoExit? || a.DoYield? || a.DoFault? || a.DoStart? || a.DoSetAlarm? || a.DoStopAlarm? || a.DoWrite?
    ensures Moved(s, a, Gate(s, a))
  {
    hide Inv, Moved, Legal, Exit, Yield, UserFault, Start, SetAlarm, StopAlarm;
    match a
    case DoExit(result) => MovedExit(s, result);
    case DoYield => MovedYield(s);
    case DoFault => MovedFault(s);
    case DoStart(target, allowed) => MovedStart(s, target, allowed);
    case _ => MovedStill(s, a);
  }

  lemma MovedStill(s: State, a: Action)
    requires Steady(s) && (a.DoSetAlarm? || a.DoStopAlarm? || a.DoWrite?)
    ensures Moved(s, a, Gate(s, a))
  {
    SameState(s);
  }

  lemma MovedStep(s: State, a: Action)
    requires Steady(s) && EnvOk(s, a) && Legal(s, a) && !a.DoTick? && !Trips(s, a)
    ensures Moved(s, a, Step(s, a))
  {
    MovedGate(s, a);
    StepKeeps(s, a);
    HandOffFrame(Gate(s, a));
  }
}
