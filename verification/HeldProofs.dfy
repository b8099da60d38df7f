/** No gate and no interrupt makes a task held, or releases one that is. */
module HeldProofs {
  import opened Slots
  import opened Rings
  import opened Exchange
  import opened IpcGraph
  import opened Rrmq
  import opened KernelSpec
  import opened Invariants
  import opened GateProofs
  import opened EventProofs

  /** The same tasks are held in both states. */
  ghost predicate HeldSame(s: State, q: State) {
    && |q.st| == |s.st| && |q.ret| == |s.ret|
    && forall t :: 0 <= t < |s.st| ==> (Held(q, t) <==> Held(s, t))
  }

  lemma HeldRet(s: State, t: nat, r: Status)
    requires WF(s) && t < s.N() && !Held(s, t) && (r != NonSense || s.st[t] != Ready)
    ensures HeldSame(s, SetRet(s, t, r))
  {
  }

  lemma HeldElect(s: State)
    requires WF(s)
    ensures HeldSame(s, Elect(s)) && Elect(s).st == s.st && Elect(s).ret == s.ret
  {
  }

  lemma HeldSchedule(s: State, t: nat)
    requires WF(s)
    ensures HeldSame(s, Schedule(s, t)) && Schedule(s, t).st == s.st && Schedule(s, t).ret == s.ret
  {
  }

  /** A wake-up concerns a task that waits, and gives it a return value. */
  lemma HeldWake(s: State, t: nat)
    requires WF(s) && t < s.N()
    ensures HeldSame(s, WakeIfWaiting(s, t, s.st[t]))
  {
    hide Schedule, DelayDel;
    var d := DelayDel(s, t);
    HeldDelayDel(s, t);
    HeldSchedule(SetState(SetRet(d, t, Intr), t, Ready), t);
  }

  lemma HeldDelayDel(s: State, t: nat)
    requires WF(s)
    ensures DelayDel(s, t).st == s.st && DelayDel(s, t).ret == s.ret
  {
  }

  /** The running task leaves READY, then the election. */
  lemma HeldLeave(s: State, q: State, c: nat)
    requires WF(s) && WF(q) && q.N() == s.N() && c < s.N() && !Held(s, c)
    requires q.st == s.st[c := q.st[c]] && q.st[c] != Ready && q.ret == s.ret[c := q.ret[c]]
    ensures HeldSame(s, Elect(q))
  {
    HeldElect(q);
    hide Elect;
  }

  lemma HeldSend(s: State, target: nat, len: nat)
    requires Steady(s) && s.sched.current.Some?
    ensures HeldSame(s, SendIpc(s, target, len))
  {
    hide SendIpc, Inv, Reaches, HeldSame;
    InvShape(s);
    var c := Current(s);
    if SendRefused(s, target, len) {
      SendRefusal(s, target, len);
      HeldRet(s, c, if len <= MAX_PAYLOAD && Reaches(s.ipcs, target, c) then DeadLk else Invalid);
    } else if target == c {
      SendAccepted(s, target, len);
      HeldRet(s.(ipcs := Put(s.ipcs, c, c, len)), c, Invalid);
      HeldStored(s, s.(ipcs := Put(s.ipcs, c, c, len)));
    } else {
      HeldSent(s, target, len);
    }
  }

  lemma HeldStored(s: State, p: State)
    requires p.st == s.st && p.ret == s.ret
    ensures forall q :: HeldSame(p, q) ==> HeldSame(s, q)
  {
  }

  lemma HeldSent(s: State, target: nat, len: nat)
    requires Steady(s) && s.sched.current.Some? && !SendRefused(s, target, len) && target != Current(s)
    ensures HeldSame(s, SendIpc(s, target, len))
  {
    hide SendIpc, WakeIfWaiting, Elect, Inv, Reaches;
    InvShape(s);
    SendAccepted(s, target, len);
    var b := SentState(s, target, len);
    HeldWake(b, target);
    HeldElect(WakeIfWaiting(b, target, b.st[target]));
  }

  lemma HeldSignal(s: State, target: nat, sig: nat)
    requires Steady(s)
    ensures HeldSame(s, SendSignal(s, target, sig))
  {
    hide SendSignal, WakeIfWaiting, Core, Mail, WakeInv;
    InvShape(s);
    var c := Current(s);
    if SignalRefused(s, target, sig) {
      SignalRefusal(s, target, sig);
      HeldRet(s, c, Invalid);
      HeldRet(s, c, Busy);
    } else {
      SignalAccepted(s, target, sig);
      var p := StoreSig(s, sig, c, target);
      HeldWake(p, target);
      HeldRet(WakeIfWaiting(p, target, p.st[target]), c, Ok);
    }
  }

  lemma HeldTakes(s: State, src: nat, devh: nat)
    requires WF(s) && !Held(s, Current(s)) && src < s.N()
    ensures HeldSame(s, TakeSig(s, Current(s), src)) && HeldSame(s, TakeInt(s, Current(s), devh))
    ensures HeldSame(s, TakeDma(s, Current(s)))
  {
  }

  lemma HeldTakeIpc(s: State, src: nat)
    requires Steady(s) && src < s.N() && s.ipcs[Current(s)][src] != 0
    ensures HeldSame(s, TakeIpc(s, Current(s), src))
  {
    SenderBlocked(s, src);
    hide TakeIpc;
    TakeIpcEffect(s, src);
  }

  lemma HeldPark(s: State, mask: bv8, timeout: int)
    requires WF(s) && !Held(s, Current(s))
    ensures HeldSame(s, Elect(WaitingState(s, mask, timeout)))
  {
    hide Elect;
    HeldLeave(s, WaitingState(s, mask, timeout), Current(s));
  }

  lemma HeldWait(s: State, mask: bv8, timeout: int, devh: nat)
    requires Steady(s)
    ensures HeldSame(s, WaitEvent(s, mask, timeout, devh))
  {
    hide Inv, HeldSame, TakeSig, TakeInt, TakeDma, TakeIpc, Elect;
    InvShape(s);
    var c, n := Current(s), s.N();
    var sig, ipc := FirstPending(s.sigs[c], n, 0), FirstPending(s.ipcs[c], n, 0);
    if NothingToTake(s, mask) {
      HeldPark(s, mask, timeout);
      HeldRet(s, c, Again);
    } else if Wants(mask, EVENT_SIGNAL) && sig < n {
      HeldTakes(s, sig, devh);
    } else if (Wants(mask, EVENT_IRQ) && !IsEmpty(s.ints[c])) || (Wants(mask, EVENT_DMA) && !IsEmpty(s.dmas[c])) {
      HeldTakes(s, 0, devh);
    } else {
      HeldTakeIpc(s, ipc);
    }
  }

  lemma HeldSleep(s: State, ms: nat, mode: nat)
    requires WF(s) && !Held(s, Current(s))
    ensures HeldSame(s, Sleep(s, ms, mode))
  {
    hide Elect, DelayAdd;
    var c := Current(s);
    HeldDelayAdd(s, c, ms);
    var j := if mode == SLEEP_MODE_DEEP then SleepingDeep else Sleeping;
    HeldLeave(s, SetRet(SetState(DelayAdd(s, c, ms), c, j), c, NonSense), c);
  }

  lemma HeldExit(s: State, result: nat)
    requires WF(s) && !Held(s, Current(s))
    ensures HeldSame(s, Exit(s, result))
  {
    hide Elect;
    var c := Current(s);
    var e := s.(code := s.code[c := result]);
    HeldLeave(s, SetRet(SetState(e, c, if result != 0 then Aborting else Finished), c, NonSense), c);
  }

  lemma HeldFault(s: State)
    requires WF(s) && !Held(s, Current(s))
    ensures HeldSame(s, UserFault(s))
  {
    hide Elect;
    HeldLeave(s, SetState(s, Current(s), Fault), Current(s));
  }

  lemma HeldYield(s: State)
    requires WF(s) && !Held(s, Current(s))
    ensures HeldSame(s, Yield(s))
  {
    hide Elect;
    HeldElect(s);
  }

  lemma HeldDelayAdd(s: State, t: nat, ms: nat)
    requires WF(s) && t < s.N()
    ensures DelayAdd(s, t, ms).st == s.st && DelayAdd(s, t, ms).ret == s.ret
  {
  }

  lemma HeldStart(s: State, target: nat, allowed: bool)
    requires Steady(s)
    ensures HeldSame(s, Start(s, target, allowed))
  {
    hide Schedule;
    HeldSchedule(s, target);
  }

  lemma HeldEvent(s: State, owner: nat, irqn: nat, e: DmaEvent)
    requires WF(s)
    ensures HeldSame(s, Irq(s, owner, irqn)) && HeldSame(s, Dma(s, owner, e))
  {
    hide WakeIfWaiting;
    if owner < s.N() {
      HeldWake(s.(ints := s.ints[owner := Push(s.ints[owner], irqn)]), owner);
      HeldWake(s.(dmas := s.dmas[owner := Push(s.dmas[owner], e)]), owner);
    }
  }

  lemma HeldAlarm(s: State, ms: nat, periodic: bool)
    requires Steady(s)
    ensures HeldSame(s, SetAlarm(s, ms, periodic)) && HeldSame(s, StopAlarm(s, ms))
  {
  }
}
