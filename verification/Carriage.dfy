/** What every step does to delay cells, messages, areas and alarms. */
module Carriage {
  import opened Slots
  import opened Rings
  import opened Exchange
  import opened IpcGraph
  import opened Rrmq
  import opened KernelSpec
  import opened Invariants
  import opened GateProofs
  import opened EventProofs
  import opened TickProofs
  import opened Protocol
  import opened Moves

  /** Active delay cells survive, except the one of a task an event wakes; a new one belongs to the
      task that asked for it. */
  ghost predicate DelaysCarried(before: seq<DelayCell>, after: seq<DelayCell>, woken: Option<nat>, asker: Option<nat>) {
    && |after| == |before|
    && (forall i :: 0 <= i < |before| && before[i].active ==>
          after[i] == before[i] || (woken == Some(before[i].handler) && !after[i].active))
    && (forall i :: 0 <= i < |before| && !before[i].active && after[i].active ==> asker == Some(after[i].handler))
  }

  /** The caller, when its request has a duration. */
  ghost function Asks(s: State, a: Action): Option<nat>
    requires WF(s)
  {
    if a.DoSleep? || (a.DoWaitEvent? && a.timeout > 0) then Some(Current(s)) else None
  }

  /** The alarm cell a stop request clears. */
  function StoppedCell(s: State, a: Action): (r: Option<nat>)
    requires WF(s)
    ensures r.Some? ==> r.value < s.size && s.alarms[r.value].active && s.alarms[r.value].handler == Current(s)
  {
    if !a.DoStopAlarm? then None
    else
      var i := FirstAlarm(s.alarms, Current(s), a.ms, 0);
      if i < s.size then Some(i) else None
  }

  /** The alarm cell a request takes. */
  function TakenCell(s: State, a: Action): (r: Option<nat>)
    ensures r.Some? ==> r.value < |s.alarms| && !s.alarms[r.value].active
  {
    if a.DoSetAlarm? && AlarmHasRoom(s) then Some(FirstFree(s.alarms)) else None
  }

  /** Active alarm cells survive, except the one a stop request names; free cells stay free, except
      the one a request takes. */
  ghost predicate AlarmsCarried(before: seq<AlarmCell>, after: seq<AlarmCell>, stopped: Option<nat>,
                                taken: Option<nat>)
  {
    && |after| == |before|
    && (forall i :: 0 <= i < |before| && !before[i].active && taken != Some(i) ==> !after[i].active)
    && (forall i :: 0 <= i < |before| && before[i].active && stopped != Some(i) ==> after[i] == before[i])
    && (stopped.Some? && stopped.value < |before| ==> !after[stopped.value].active)
  }

  /** The message slots after a step. */
  ghost function SlotsAfter(s: State, a: Action): seq<seq<nat>>
    requires WF(s)
  {
    match a
    case DoSendIpc(target, len) =>
      if SendRefused(s, target, len) || target == Current(s) then s.ipcs else Put(s.ipcs, target, Current(s), len)
    case DoWaitEvent(mask, _, _) =>
      if TakesIpc(s, mask).None? then s.ipcs else Put(s.ipcs, Current(s), TakesIpc(s, mask).value, 0)
    case _ => s.ipcs
  }

  /** Another task's area is never written, the caller's own only by itself or by a delivery, and a
      delivered message is written into the receiver's. */
  ghost predicate AreasCarried(s: State, a: Action, q: State)
    requires WF(s) && |q.exch| == s.N()
  {
    && (forall t :: 0 <= t < s.N() && t != Current(s) ==> q.exch[t] == s.exch[t])
    && (!a.DoWrite? && !(a.DoWaitEvent? && !NothingToTake(s, a.mask)) ==> q.exch[Current(s)] == s.exch[Current(s)])
    && (a.DoWrite? ==> q.exch[Current(s)] == ToKernel(s.exch[Current(s)], a.data))
    && (a.DoWaitEvent? && TakesIpc(s, a.mask).Some? ==>
          var src := TakesIpc(s, a.mask).value;
          q.exch[Current(s)] ==
            WriteEvent(s.exch[Current(s)], 1, s.meta[src].handle, Payload(s, Current(s), src)))
  }

  ghost predicate Carried(s: State, a: Action, q: State)
    requires WF(s) && Legal(s, a)
  {
    && |q.exch| == s.N()
    && DelaysCarried(s.delays, q.delays, Rouses(s, a), Asks(s, a))
    && AlarmsCarried(s.alarms, q.alarms, StoppedCell(s, a), TakenCell(s, a))
    && q.ipcs == SlotsAfter(s, a)
    && AreasCarried(s, a, q)
  }

  lemma DelDelays(s: State, t: nat)
    requires WF(s)
    ensures DelaysCarried(s.delays, DelayDel(s, t).delays, Some(t), None)
  {
  }

  lemma AddDelays(s: State, t: nat, ms: nat)
    requires WF(s) && t < s.N()
    ensures DelaysCarried(s.delays, DelayAdd(s, t, ms).delays, None, Some(t))
    ensures forall i :: 0 <= i < s.size && s.delays[i].active ==> DelayAdd(s, t, ms).delays[i] == s.delays[i]
    ensures DelayHasRoom(s) ==> DelayAdd(s, t, ms).delays[FirstFree(s.delays)] == Slot(true, t, DelayData(ms, ms))
  {
  }

  lemma ElectCarries(s: State)
    requires WF(s)
    ensures var q := Elect(s);
            && q.delays == s.delays && q.alarms == s.alarms && q.ipcs == s.ipcs && q.exch == s.exch
            && q.sigs == s.sigs && q.ret == s.ret
  {
  }

  lemma ScheduleCarries(s: State, t: nat)
    requires WF(s)
    ensures var q := Schedule(s, t);
            q.delays == s.delays && q.alarms == s.alarms && q.ipcs == s.ipcs && q.exch == s.exch
  {
  }

  /** A conditional wake-up concerns the delay cell of the woken task only. */
  lemma WakeCarries(s: State, t: nat, was: JobState)
    requires WF(s) && t < s.N()
    ensures var q := WakeIfWaiting(s, t, was);
            && DelaysCarried(s.delays, q.delays, if Wakeable(was) then Some(t) else None, None)
            && q.alarms == s.alarms && q.ipcs == s.ipcs && q.exch == s.exch && q.sigs == s.sigs
            && (Wakeable(was) ==> q.ret == s.ret[t := Some(Intr)])
  {
    DelDelays(s, t);
  }

  /** An accepted message to another task: the slot is filled, the receiver perhaps woken. */
  lemma CarriedSent(s: State, target: nat, len: nat)
    requires Steady(s) && s.sched.current.Some? && !SendRefused(s, target, len) && target != Current(s) && len >= 1
    ensures Carried(s, DoSendIpc(target, len), SendIpc(s, target, len))
  {
    hide SendIpc, Inv, WakeIfWaiting, Elect, Reaches, DelaysCarried;
    InvShape(s);
    SendAccepted(s, target, len);
    var b := SentState(s, target, len);
    WakeCarries(b, target, b.st[target]);
    ElectCarries(WakeIfWaiting(b, target, b.st[target]));
  }

  lemma CarriedSend(s: State, target: nat, len: nat)
    requires Steady(s) && s.sched.current.Some? && Legal(s, DoSendIpc(target, len))
    ensures Carried(s, DoSendIpc(target, len), SendIpc(s, target, len))
  {
    hide SendIpc;
    if SendRefused(s, target, len) {
      SendRefusal(s, target, len);
    } else if target != Current(s) {
      CarriedSent(s, target, len);
    } else {
      SendAccepted(s, target, len);
      RunnerReady(s);
      PutSame(s.ipcs, target, target);
    }
  }

  lemma CarriedSignal(s: State, target: nat, sig: nat)
    requires Steady(s) && s.sched.current.Some?
    ensures Carried(s, DoSendSignal(target, sig), SendSignal(s, target, sig))
  {
    hide SendSignal, WakeIfWaiting, Core, Mail, WakeInv, Reaches;
    InvShape(s);
    if SignalRefused(s, target, sig) {
      SignalRefusal(s, target, sig);
    } else {
      hide DelaysCarried;
      SignalAccepted(s, target, sig);
      var p := StoreSig(s, sig, Current(s), target);
      WakeCarries(p, target, p.st[target]);
    }
  }

  lemma CarriedIrq(s: State, owner: nat, irqn: nat)
    requires Steady(s) && Legal(s, DoIrq(owner, irqn))
    ensures Carried(s, DoIrq(owner, irqn), Irq(s, owner, irqn))
  {
    hide WakeIfWaiting, Inv, DelaysCarried, Reaches;
    InvShape(s);
    WakeCarries(s.(ints := s.ints[owner := Push(s.ints[owner], irqn)]), owner, s.st[owner]);
  }

  lemma CarriedDma(s: State, owner: nat, e: DmaEvent)
    requires Steady(s) && Legal(s, DoDma(owner, e))
    ensures Carried(s, DoDma(owner, e), Dma(s, owner, e))
  {
    hide WakeIfWaiting, Inv, DelaysCarried, Reaches;
    InvShape(s);
    WakeCarries(s.(dmas := s.dmas[owner := Push(s.dmas[owner], e)]), owner, s.st[owner]);
  }

  lemma CarriedTake(s: State, mask: bv8, timeout: int, devh: nat)
    requires Steady(s) && TakesIpc(s, mask).Some?
    ensures Carried(s, DoWaitEvent(mask, timeout, devh), WaitEvent(s, mask, timeout, devh))
  {
    hide WaitEvent, TakeIpc, Inv;
    InvShape(s);
    WaitTakes(s, mask, timeout, devh);
    TakeIpcEffect(s, TakesIpc(s, mask).value);
  }

  lemma CarriedPark(s: State, mask: bv8, timeout: int, devh: nat)
    requires Steady(s) && TakesIpc(s, mask).None? && NothingToTake(s, mask) && timeout != -1
    ensures Carried(s, DoWaitEvent(mask, timeout, devh), WaitEvent(s, mask, timeout, devh))
  {
    hide WaitEvent, Elect, Inv, NothingToTake, TakesIpc, DelaysCarried, DelayAdd;
    InvShape(s);
    WaitParks(s, mask, timeout, devh);
    ParkedColumns(s, mask, timeout);
    ElectCarries(WaitingState(s, mask, timeout));
  }

  lemma ParkedColumns(s: State, mask: bv8, timeout: int)
    requires WF(s)
    ensures var q := WaitingState(s, mask, timeout);
            && q.alarms == s.alarms && q.ipcs == s.ipcs && q.exch == s.exch
            && DelaysCarried(s.delays, q.delays, None, if timeout > 0 then Some(Current(s)) else None)
  {
    if timeout > 0 {
      AddDelays(s, Current(s), timeout);
    }
  }

  lemma CarriedStay(s: State, mask: bv8, timeout: int, devh: nat)
    requires Steady(s) && TakesIpc(s, mask).None? && !(NothingToTake(s, mask) && timeout != -1)
    ensures Carried(s, DoWaitEvent(mask, timeout, devh), WaitEvent(s, mask, timeout, devh))
  {
    hide WaitEvent, Inv;
    InvShape(s);
    WaitStays(s, mask, timeout, devh);
  }

  lemma CarriedWait(s: State, mask: bv8, timeout: int, devh: nat)
    requires Steady(s) && s.sched.current.Some?
    ensures Carried(s, DoWaitEvent(mask, timeout, devh), WaitEvent(s, mask, timeout, devh))
  {
    hide WaitEvent, Inv, Carried;
    InvShape(s);
    if TakesIpc(s, mask).Some? {
      CarriedTake(s, mask, timeout, devh);
    } else if NothingToTake(s, mask) && timeout != -1 {
      CarriedPark(s, mask, timeout, devh);
    } else {
      CarriedStay(s, mask, timeout, devh);
    }
  }

  lemma CarriedSleep(s: State, ms: nat, mode: nat)
    requires WF(s)
    ensures Carried(s, DoSleep(ms, mode), Sleep(s, ms, mode))
  {
    hide ElectSched, FirstFree;
    AddDelays(s, Current(s), ms);
  }

  /** Gates that touch none of these columns. */
  lemma CarriedSame(s: State, a: Action, q: State)
    requires WF(s) && Legal(s, a) && (a.DoExit? || a.DoYield? || a.DoFault? || a.DoStart?)
    requires q.delays == s.delays && q.alarms == s.alarms && q.ipcs == s.ipcs && q.exch == s.exch
    ensures Carried(s, a, q)
  {
  }

  lemma CarriedOther(s: State, a: Action)
    requires Steady(s) && Legal(s, a) && (a.DoExit? || a.DoYield? || a.DoFault? || a.DoStart?)
    ensures Carried(s, a, Gate(s, a))
  {
    hide Elect, Schedule, Carried, Inv;
    InvShape(s);
    match a {
    case DoExit(result) =>
      var c := Current(s);
      var e := s.(code := s.code[c := result]);
      ElectCarries(SetRet(SetState(e, c, if result != 0 then Aborting else Finished), c, NonSense));
    case DoYield => ElectCarries(s);
    case DoFault => ElectCarries(SetState(s, Current(s), Fault));
    case DoStart(target, _) => ScheduleCarries(s, target);
    }
    CarriedSame(s, a, Gate(s, a));
  }

  /** Gates about alarms, and the user's own writes. */
  lemma CarriedSetAlarm(s: State, ms: nat, periodic: bool)
    requires WF(s)
    ensures Carried(s, DoSetAlarm(ms, periodic), SetAlarm(s, ms, periodic))
  {
  }

  lemma CarriedStopAlarm(s: State, ms: nat)
    requires WF(s)
    ensures Carried(s, DoStopAlarm(ms), StopAlarm(s, ms))
  {
  }

  lemma CarriedWrite(s: State, data: seq<byte>)
    requires WF(s)
    ensures Carried(s, DoWrite(data), Gate(s, DoWrite(data)))
  {
  }

  lemma CarriedGate(s: State, a: Action)
    requires Steady(s) && EnvOk(s, a) && Legal(s, a) && !a.DoTick?
    ensures Carried(s, a, Gate(s, a))
  {
    hide Carried, Inv, Legal;
    InvShape(s);
    match a
    case DoSendIpc(target, len) => CarriedSend(s, target, len);
    case DoSendSignal(target, sig) => CarriedSignal(s, target, sig);
    case DoWaitEvent(mask, timeout, devh) => CarriedWait(s, mask, timeout, devh);
    case DoSleep(ms, mode) => CarriedSleep(s, ms, mode);
    case DoIrq(owner, irqn) => CarriedIrq(s, owner, irqn);
    case DoDma(owner, event) => CarriedDma(s, owner, event);
    case DoSetAlarm(ms, periodic) => CarriedSetAlarm(s, ms, periodic);
    case DoStopAlarm(ms) => CarriedStopAlarm(s, ms);
    case DoWrite(data) => CarriedWrite(s, data);
    case _ => CarriedOther(s, a);
  }

  lemma CarriedStep(s: State, a: Action)
    requires Steady(s) && EnvOk(s, a) && Legal(s, a) && !a.DoTick? && !Trips(s, a)
    ensures Carried(s, a, Step(s, a))
  {
    hide Inv, Gate, Step, Trips;
    InvShape(s);
    CarriedGate(s, a);
    StepKeeps(s, a);
    HandOffFrame(Gate(s, a));
  }

  /** A tick ages every delay and alarm cell, and touches no message and no area. */
  ghost predicate TickCarried(s: State, q: State)
    requires WF(s)
  {
    && q.ipcs == s.ipcs && q.exch == s.exch && |q.alarms| == |s.alarms| && |q.sigs| == |s.sigs| == s.N()
    && (forall d, x :: 0 <= d < s.N() && 0 <= x < s.N() ==>
          x < |q.sigs[d]| && q.sigs[d][x] ==
            if s.sigs[d][x] != 0 then s.sigs[d][x]
            else if d == x && RingsFor(s.alarms, d, |s.alarms|) then SIGNAL_ALARM else 0)
    && q.ints == s.ints && q.dmas == s.dmas && q.code == s.code && q.mask == s.mask
    && q.started == s.started && AgedTo(s.delays, q.delays, |s.delays|)
    && (forall i :: 0 <= i < |s.alarms| ==> q.alarms[i] == AgedAlarm(s.alarms[i]))
    && |q.st| == |q.ret| == s.N()
    && (forall t :: 0 <= t < s.N() ==>
          q.st[t] == if DueTo(s.delays, t, s.size) || Misfired(s, t) then Ready else s.st[t])
    && (forall t :: 0 <= t < s.N() && DueTo(s.delays, t, s.size) ==> q.ret[t] == Some(Timeout))
  }

  /** The task that runs after the tick has no delayed job that the tick ended. */
  lemma RunnerNotDue(s: State)
    requires Inv(s) && !Held(s, Current(Refresh(s)))
    ensures !DueTo(s.delays, Current(Refresh(s)), s.size)
  {
    hide Refresh;
    RefreshRunner(s);
    NoDelayWhenReady(s.delays, s.st, s.ret, Current(Refresh(s)));
  }

  /** Delay and alarm cells, signals and states of a tick that does not panic. */
  lemma TickCells(s: State)
    requires Inv(s) && !Jammed(s)
    ensures var q := Tick(s);
            && q.ipcs == s.ipcs && q.exch == s.exch && q.ints == s.ints && q.dmas == s.dmas && q.code == s.code
            && q.mask == s.mask && q.started == s.started && AgedTo(s.delays, q.delays, |s.delays|)
            && (forall i :: 0 <= i < |s.alarms| ==> q.alarms[i] == AgedAlarm(s.alarms[i]))
            && RungSlots(Halfway(s), q, s.size) && Halfway(s).alarms == s.alarms && Halfway(s).sigs == s.sigs
  {
    hide Inv, Jammed, Roused, HitBy, RungSlots;
    InvShape(s);
    HalfwayKeeps(s);
    TickAlarmsKeep(Halfway(s), s.size);
    hide Halfway, TickAlarms, Refresh, TickJobs;
  }

  lemma TickCarries(s: State)
    requires Inv(s) && !Jammed(s)
    ensures TickCarried(s, Tick(s))
  {
    hide Inv, Jammed, Tick, Halfway, Misfired, DueTo, AgedTo;
    InvShape(s);
    TickCells(s);
    forall t | 0 <= t < s.N()
      ensures Tick(s).st[t] == if DueTo(s.delays, t, s.size) || Misfired(s, t) then Ready else s.st[t]
      ensures DueTo(s.delays, t, s.size) ==> Tick(s).ret[t] == Some(Timeout)
    {
      TickColumns(s, t);
    }
  }

  lemma TickStepCarries(s: State)
    requires Steady(s) && !Trips(s, DoTick)
    ensures TickCarried(s, Step(s, DoTick))
  {
    hide Inv, Tick, Refresh, Jammed, AgedTo, Misfired, DueTo;
    InvShape(s);
    TickCarries(s);
    RunnerNotDue(s);
    TickKeeps(s);
    StepKeeps(s, DoTick);
    hide Step;
    HandOffFrame(Tick(s));
  }
}
