/** What every gate does to event rings, exit codes, the clock, masks and the return values of tasks
    other than the caller. */
module Columns {
  import opened Slots
  import opened Rings
  import opened Exchange
  import opened IpcGraph
  import opened Rrmq
  import opened KernelSpec
  import opened Invariants
  import opened GateProofs
  import opened EventProofs
  import opened TickProofs
  import opened Protocol
  import opened Moves
  import opened Carriage
  import opened Delivery

  // ---- Event rings, exit codes and the clock ---------------------------------------------------------------

  ghost predicate SameQueues(s: State, q: State) {
    q.ints == s.ints && q.dmas == s.dmas && q.code == s.code && q.jiffies == s.jiffies && q.mask == s.mask
  }

  lemma ScheduleQueues(s: State, t: nat)
    requires WF(s)
    ensures SameQueues(s, Schedule(s, t))
  {
  }

  lemma ElectQueues(s: State)
    requires WF(s)
    ensures SameQueues(s, Elect(s))
  {
  }

  lemma WakeQueues(s: State, t: nat, was: JobState)
    requires WF(s) && t < s.N()
    ensures SameQueues(s, WakeIfWaiting(s, t, was))
  {
    hide Schedule;
    ScheduleQueues(SetState(SetRet(DelayDel(s, t), t, Intr), t, Ready), t);
  }

  lemma SendQueues(s: State, target: nat, len: nat)
    requires WF(s)
    ensures SameQueues(s, SendIpc(s, target, len))
  {
    hide Elect, WakeIfWaiting, Detect;
    if target < s.N() && target != Current(s) {
      SentIs(s, target, len);
      var b := SentState(s, target, len);
      WakeQueues(b, target, b.st[target]);
      ElectQueues(WakeIfWaiting(b, target, b.st[target]));
    }
  }

  lemma PushQueues(s: State, sig: nat, src: nat, dst: nat)
    requires WF(s) && src < s.N()
    ensures SameQueues(s, PushSig(s, sig, src, dst))
  {
  }

  lemma SignalQueues(s: State, target: nat, sig: nat)
    requires WF(s)
    ensures SameQueues(s, SendSignal(s, target, sig))
  {
    hide PushSig, WakeIfWaiting, Schedule;
    if target < s.N() {
      var p := PushSig(s, sig, Current(s), target);
      PushQueues(s, sig, Current(s), target);
      WakeQueues(p, target, s.st[target]);
    }
  }

  /** A wait takes an interrupt or a DMA event exactly when it delivers one, and nothing otherwise. */
  lemma WaitQueues(s: State, mask: bv8, timeout: int, devh: nat)
    requires WF(s)
    ensures var q, c := WaitEvent(s, mask, timeout, devh), Current(s);
            && q.ints == (if TakesInterrupt(s, mask) then s.ints[c := PopClear(s.ints[c])] else s.ints)
            && q.dmas == (if TakesDma(s, mask) then s.dmas[c := Pop(s.dmas[c])] else s.dmas)
            && q.code == s.code && q.jiffies == s.jiffies
            && q.mask == if NothingToTake(s, mask) && timeout != -1 then s.mask[c := mask] else s.mask
  {
    WaitCases(s, mask, timeout, devh);
    TakesOne(s, mask);
    hide WaitEvent, Elect, PopClear, Pop, Le32, TakeIpc, WriteEvent, TakesSignal, TakesInterrupt, TakesDma, TakesIpc;
    ElectQueues(WaitingState(s, mask, timeout));
    if TakesIpc(s, mask).Some? {
      TakeQueues(s, TakesIpc(s, mask).value);
    }
  }

  /** The wait gate, case by case. */
  lemma WaitCases(s: State, mask: bv8, timeout: int, devh: nat)
    requires WF(s)
    ensures var c := Current(s);
            WaitEvent(s, mask, timeout, devh) ==
            if TakesSignal(s, mask).Some? then TakeSig(s, c, TakesSignal(s, mask).value)
            else if TakesInterrupt(s, mask) then TakeInt(s, c, devh)
            else if TakesDma(s, mask) then TakeDma(s, c)
            else if TakesIpc(s, mask).Some? then TakeIpc(s, c, TakesIpc(s, mask).value)
            else if timeout == -1 then SetRet(s, c, Again)
            else Elect(WaitingState(s, mask, timeout))
  {
    hide TakeSig, TakeInt, TakeDma, TakeIpc, Elect;
  }

  /** At most one kind of event is delivered, and none exactly when there is nothing to take. */
  lemma TakesOne(s: State, mask: bv8)
    requires WF(s)
    ensures TakesSignal(s, mask).Some? ==> !TakesInterrupt(s, mask) && !TakesDma(s, mask) && TakesIpc(s, mask).None?
    ensures TakesInterrupt(s, mask) ==> !TakesDma(s, mask) && TakesIpc(s, mask).None?
    ensures TakesDma(s, mask) ==> TakesIpc(s, mask).None?
    ensures NothingToTake(s, mask) <==>
            TakesSignal(s, mask).None? && !TakesInterrupt(s, mask) && !TakesDma(s, mask) && TakesIpc(s, mask).None?
  {
  }

  lemma TakeQueues(s: State, src: nat)
    requires WF(s) && src < s.N()
    ensures SameQueues(s, TakeIpc(s, Current(s), src))
  {
  }

  /** Rings change by the event of an interrupt or by a delivery, exit codes by an exit, the clock
      by a tick. */
  lemma GateQueues(s: State, a: Action)
    requires WF(s) && !a.DoTick?
    ensures !a.DoIrq? && !a.DoWaitEvent? ==> Gate(s, a).ints == s.ints
    ensures !a.DoDma? && !a.DoWaitEvent? ==> Gate(s, a).dmas == s.dmas
    ensures !a.DoExit? ==> Gate(s, a).code == s.code
    ensures a.DoExit? ==> Gate(s, a).code == s.code[Current(s) := a.result]
    ensures Gate(s, a).jiffies == s.jiffies
    ensures !a.DoWaitEvent? ==> Gate(s, a).mask == s.mask
  {
    hide SendIpc, SendSignal, WaitEvent, Sleep, Exit, Yield, UserFault, Start, SetAlarm, StopAlarm, Irq, Dma;
    hide TakesInterrupt, TakesDma, WF;
    match a
    case DoSendIpc(target, len) => SendQueues(s, target, len);
    case DoSendSignal(target, sig) => SignalQueues(s, target, sig);
    case DoWaitEvent(mask, timeout, devh) => WaitQueues(s, mask, timeout, devh);
    case DoSleep(ms, mode) => SleepQueues(s, ms, mode);
    case DoExit(result) => ExitQueues(s, result);
    case DoIrq(owner, irqn) => IrqQueues(s, owner, irqn);
    case DoDma(owner, e) => DmaQueues(s, owner, e);
    case _ => OtherQueues(s, a);
  }

  lemma IrqQueues(s: State, owner: nat, irqn: nat)
    requires WF(s)
    ensures var q := Irq(s, owner, irqn);
            q.dmas == s.dmas && q.code == s.code && q.jiffies == s.jiffies && q.mask == s.mask
  {
    hide WakeIfWaiting;
    if owner < s.N() {
      WakeQueues(s.(ints := s.ints[owner := Push(s.ints[owner], irqn)]), owner, s.st[owner]);
    }
  }

  lemma DmaQueues(s: State, owner: nat, e: DmaEvent)
    requires WF(s)
    ensures var q := Dma(s, owner, e);
            q.ints == s.ints && q.code == s.code && q.jiffies == s.jiffies && q.mask == s.mask
  {
    hide WakeIfWaiting;
    if owner < s.N() {
      WakeQueues(s.(dmas := s.dmas[owner := Push(s.dmas[owner], e)]), owner, s.st[owner]);
    }
  }

  lemma OtherQueues(s: State, a: Action)
    requires WF(s)
    requires a.DoYield? || a.DoFault? || a.DoStart? || a.DoSetAlarm? || a.DoStopAlarm? || a.DoWrite?
    ensures SameQueues(s, Gate(s, a))
  {
    hide Schedule, Elect, ToKernel;
    match a
    case DoYield => ElectQueues(s);
    case DoFault => ElectQueues(SetState(s, Current(s), Fault));
    case DoStart(target, _) => ScheduleQueues(s, target);
    case _ =>
  }

  lemma SleepQueues(s: State, ms: nat, mode: nat)
    requires WF(s)
    ensures SameQueues(s, Sleep(s, ms, mode))
  {
  }

  lemma ExitQueues(s: State, result: nat)
    requires WF(s)
    ensures SameQueues(s.(code := s.code[Current(s) := result]), Exit(s, result))
  {
  }

  lemma StepQueues(s: State, a: Action)
    requires Steady(s) && EnvOk(s, a) && Legal(s, a) && !Trips(s, a)
    ensures SameQueues(Gate(s, a), Step(s, a))
  {
    hide Inv, Legal, EnvOk, Gate, Step, Trips;
    InvShape(s);
    StepKeeps(s, a);
    HandOffFrame(Gate(s, a));
  }

  // ---- Return values of the others ---------------------------------------------------------------------------

  /** Only the caller and the task that is woken are given a return value. */
  ghost predicate RetCarried(s: State, a: Action, q: State)
    requires WF(s) && Legal(s, a)
  {
    |q.ret| == s.N() &&
    forall t :: 0 <= t < s.N() && t != Current(s) && Rouses(s, a) != Some(t) ==> q.ret[t] == s.ret[t]
  }

  lemma RetSent(s: State, target: nat, len: nat)
    requires Inv(s) && s.sched.current.Some? && !SendRefused(s, target, len) && target != Current(s)
    ensures SendIpc(s, target, len).ret ==
            if Wakeable(s.st[target]) then s.ret[Current(s) := Some(NonSense)][target := Some(Intr)]
            else s.ret[Current(s) := Some(NonSense)]
  {
    hide SendIpc, Inv, WakeIfWaiting, Elect, Reaches, DelaysCarried;
    InvShape(s);
    SendAccepted(s, target, len);
    var b := SentState(s, target, len);
    WakeCarries(b, target, b.st[target]);
    WakeNot(b, target, b.st[target]);
    ElectCarries(WakeIfWaiting(b, target, b.st[target]));
  }

  lemma WakeNot(s: State, t: nat, was: JobState)
    requires WF(s) && t < s.N()
    ensures !Wakeable(was) ==> WakeIfWaiting(s, t, was) == s
  {
  }

  lemma RetSend(s: State, target: nat, len: nat)
    requires Steady(s) && s.sched.current.Some? && Legal(s, DoSendIpc(target, len))
    ensures RetCarried(s, DoSendIpc(target, len), SendIpc(s, target, len))
  {
    hide SendIpc, Inv, Reaches;
    InvShape(s);
    if SendRefused(s, target, len) {
      SendRefusal(s, target, len);
    } else if target == Current(s) {
      SendAccepted(s, target, len);
    } else {
      RetSent(s, target, len);
    }
  }

  lemma RetSignal(s: State, target: nat, sig: nat)
    requires Steady(s) && s.sched.current.Some?
    ensures RetCarried(s, DoSendSignal(target, sig), SendSignal(s, target, sig))
  {
    hide SendSignal, WakeIfWaiting, Core, Mail, WakeInv, DelaysCarried;
    InvShape(s);
    if SignalRefused(s, target, sig) {
      SignalRefusal(s, target, sig);
    } else {
      SignalAccepted(s, target, sig);
      var p := StoreSig(s, sig, Current(s), target);
      WakeCarries(p, target, p.st[target]);
      WakeNot(p, target, p.st[target]);
    }
  }

  lemma RetTake(s: State, mask: bv8, timeout: int, devh: nat)
    requires Steady(s) && TakesIpc(s, mask).Some?
    ensures RetCarried(s, DoWaitEvent(mask, timeout, devh), WaitEvent(s, mask, timeout, devh))
  {
    hide WaitEvent, TakeIpc, Inv, TakesIpc;
    InvShape(s);
    WaitTakes(s, mask, timeout, devh);
    TakesPending(s, mask);
    TakeIpcEffect(s, TakesIpc(s, mask).value);
  }

  lemma RetWait(s: State, mask: bv8, timeout: int, devh: nat)
    requires Steady(s)
    ensures RetCarried(s, DoWaitEvent(mask, timeout, devh), WaitEvent(s, mask, timeout, devh))
  {
    if TakesIpc(s, mask).Some? {
      RetTake(s, mask, timeout, devh);
    } else {
      InvShape(s);
      WaitCases(s, mask, timeout, devh);
      hide WaitEvent, Elect, Inv, TakesSignal, TakesInterrupt, TakesDma, TakesIpc, PopClear, Pop, Le32, WriteEvent;
      ElectCarries(WaitingState(s, mask, timeout));
    }
  }

  lemma RetIrq(s: State, owner: nat, irqn: nat)
    requires WF(s) && Legal(s, DoIrq(owner, irqn))
    ensures RetCarried(s, DoIrq(owner, irqn), Irq(s, owner, irqn))
  {
    hide WakeIfWaiting, DelaysCarried, Push;
    var p := s.(ints := s.ints[owner := Push(s.ints[owner], irqn)]);
    WakeCarries(p, owner, s.st[owner]);
    WakeNot(p, owner, s.st[owner]);
  }

  lemma RetDma(s: State, owner: nat, e: DmaEvent)
    requires WF(s) && Legal(s, DoDma(owner, e))
    ensures RetCarried(s, DoDma(owner, e), Dma(s, owner, e))
  {
    hide WakeIfWaiting, DelaysCarried, Push;
    var p := s.(dmas := s.dmas[owner := Push(s.dmas[owner], e)]);
    WakeCarries(p, owner, s.st[owner]);
    WakeNot(p, owner, s.st[owner]);
  }

  lemma RetOther(s: State, a: Action)
    requires WF(s) && Legal(s, a)
    requires
      || a.DoSleep? || a.DoExit? || a.DoYield? || a.DoFault? || a.DoStart? || a.DoSetAlarm? || a.DoStopAlarm?
      || a.DoWrite?
    ensures RetCarried(s, a, Gate(s, a))
  {
    hide Schedule, ElectSched, Legal, ToKernel, FirstAlarm, DelayHasRoom, ElectPanics;
    if a.DoStart? {
      ScheduleRet(s, a.target);
    }
  }

  lemma ScheduleRet(s: State, t: nat)
    requires WF(s)
    ensures Schedule(s, t).ret == s.ret
  {
  }

  lemma RetGate(s: State, a: Action)
    requires Steady(s) && EnvOk(s, a) && Legal(s, a) && !a.DoTick?
    ensures RetCarried(s, a, Gate(s, a))
  {
    hide RetCarried, Inv, Legal, SendIpc, SendSignal, WaitEvent, Irq, Dma;
    InvShape(s);
    match a
    case DoSendIpc(target, len) => RetSend(s, target, len);
    case DoSendSignal(target, sig) => RetSignal(s, target, sig);
    case DoWaitEvent(mask, timeout, devh) => RetWait(s, mask, timeout, devh);
    case DoIrq(owner, irqn) => RetIrq(s, owner, irqn);
    case DoDma(owner, event) => RetDma(s, owner, event);
    case _ => RetOther(s, a);
  }
}
