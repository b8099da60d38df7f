/** What a waiting task is given: signals, interrupts and DMA events, and the status of a task
    that an event wakes. */
module Delivery {
  import opened Slots
  import opened Rings
  import opened Exchange
  import opened IpcGraph
  import opened Rrmq
  import opened KernelSpec
  import opened Invariants
  import opened GateProofs
  import opened EventProofs
  import opened TickProofs
  import opened Protocol
  import opened Moves
  import opened Carriage

  // ---- One delivery ----------------------------------------------------------------------------------------

  /** The area decodes to this event, in any buffer with room for its data. */
  ghost predicate Decodes(area: seq<byte>, kind: byte, source: nat, data: seq<byte>) {
    && |area| == AREA_LEN && |data| <= MAX_PAYLOAD
    && forall room: nat :: FromKernel(area, room) ==
         if |data| <= room then Received(Event(kind, |data|, source, data)) else Rejected
  }

  lemma WrittenDecodes(area: seq<byte>, kind: byte, source: nat, data: seq<byte>)
    requires |area| == AREA_LEN && |data| <= MAX_PAYLOAD && source < 0x1_0000_0000
    ensures Decodes(WriteEvent(area, kind, source, data), kind, source, data)
  {
    forall room: nat
      ensures FromKernel(WriteEvent(area, kind, source, data), room) ==
              if |data| <= room then Received(Event(kind, |data|, source, data)) else Rejected
    {
      EventRoundTrip(area, kind, source, data, room);
    }
  }

  /** The sender of the signal a wait delivers: the first task with a signal pending, when signals
      are asked for. */
  function TakesSignal(s: State, mask: bv8): (r: Option<nat>)
    requires WF(s)
    ensures r.Some? ==> r.value < s.N()
  {
    var k := FirstPending(s.sigs[Current(s)], s.N(), 0);
    if Wants(mask, EVENT_SIGNAL) && k < s.N() then Some(k) else None
  }

  predicate TakesInterrupt(s: State, mask: bv8)
    requires WF(s)
  {
    TakesSignal(s, mask).None? && Wants(mask, EVENT_IRQ) && !IsEmpty(s.ints[Current(s)])
  }

  predicate TakesDma(s: State, mask: bv8)
    requires WF(s)
  {
    TakesSignal(s, mask).None? && !TakesInterrupt(s, mask) && Wants(mask, EVENT_DMA) && !IsEmpty(s.dmas[Current(s)])
  }

  /** A signal is delivered before anything else, with its number and its sender, and its slot is
      free again. */
  lemma SignalDelivered(s: State, mask: bv8, timeout: int, devh: nat)
    requires Inv(s) && TakesSignal(s, mask).Some?
    ensures var q, c, src := WaitEvent(s, mask, timeout, devh), Current(s), TakesSignal(s, mask).value;
            && s.sigs[c][src] != 0 && Decodes(q.exch[c], 2, s.meta[src].handle, Le32(s.sigs[c][src]))
            && FromLe32(Le32(s.sigs[c][src])) == s.sigs[c][src]
            && q.sigs == Put(s.sigs, c, src, 0) && q.ret[c] == Some(Ok)
            && q.ints == s.ints && q.dmas == s.dmas && q.ipcs == s.ipcs && q.st == s.st && q.sched == s.sched
  {
    var c, src := Current(s), TakesSignal(s, mask).value;
    assert s.sigs[c][src] <= SIGNAL_USR2 && s.sigs[c][src] % 256 == s.sigs[c][src];
    WrittenDecodes(s.exch[c], 2, s.meta[src].handle, Le32(s.sigs[c][src]));
    Le32RoundTrip(s.sigs[c][src]);
    hide Decodes, Le32, FromLe32;
  }

  /** Otherwise the oldest interrupt is delivered, under the number its ring cell holds (see
      `InterruptsOfRun` for which cells still hold it) and with the device handle the caller of
      the gate looked up for it. */
  lemma InterruptDelivered(s: State, mask: bv8, timeout: int, devh: nat)
    requires WF(s) && TakesInterrupt(s, mask) && devh < 0x1_0000_0000
    ensures var q, c := WaitEvent(s, mask, timeout, devh), Current(s);
            && |Contents(s.ints[c])| > 0 && Decodes(q.exch[c], 4, devh, Le32(Contents(s.ints[c])[0]))
            && q.ints == s.ints[c := PopClear(s.ints[c])] && q.ret[c] == Some(Ok)
            && q.sigs == s.sigs && q.dmas == s.dmas && q.ipcs == s.ipcs && q.st == s.st && q.sched == s.sched
  {
    var c := Current(s);
    RingSize(s.ints[c]);
    WrittenDecodes(s.exch[c], 4, devh, Le32(Contents(s.ints[c])[0]));
    hide Decodes, Le32, PopClear;
  }

  /** Otherwise the oldest DMA event is delivered, and the ones after it stay in order. */
  lemma DmaDelivered(s: State, mask: bv8, timeout: int, devh: nat)
    requires WF(s) && TakesDma(s, mask)
    ensures var q, c := WaitEvent(s, mask, timeout, devh), Current(s);
            && |Contents(s.dmas[c])| > 0
            && (Contents(s.dmas[c])[0].stream < 0x1_0000_0000 ==>
                  Decodes(q.exch[c], 8, Contents(s.dmas[c])[0].stream, [Contents(s.dmas[c])[0].event % 256]))
            && Contents(q.dmas[c]) == Contents(s.dmas[c])[1..] && q.ret[c] == Some(Ok)
            && (forall t :: 0 <= t < s.N() && t != c ==> q.dmas[t] == s.dmas[t])
            && q.sigs == s.sigs && q.ints == s.ints && q.ipcs == s.ipcs && q.st == s.st && q.sched == s.sched
  {
    var c := Current(s);
    RingSize(s.dmas[c]);
    PopFifo(s.dmas[c]);
    var e := Contents(s.dmas[c])[0];
    if e.stream < 0x1_0000_0000 {
      WrittenDecodes(s.exch[c], 8, e.stream, [e.event % 256]);
    }
    hide Decodes;
  }

  // ---- Status of a task that is woken ----------------------------------------------------------------------

  lemma SentStatus(s: State, target: nat, len: nat)
    requires Inv(s) && s.sched.current.Some? && !SendRefused(s, target, len) && target != Current(s)
    requires Wakeable(s.st[target])
    ensures SendIpc(s, target, len).ret[target] == Some(Intr)
  {
    hide SendIpc, Inv, WakeIfWaiting, Elect, Reaches, DelaysCarried;
    InvShape(s);
    SendAccepted(s, target, len);
    var b := SentState(s, target, len);
    WakeCarries(b, target, b.st[target]);
    ElectCarries(WakeIfWaiting(b, target, b.st[target]));
  }

  lemma SignalledStatus(s: State, target: nat, sig: nat)
    requires Inv(s) && !SignalRefused(s, target, sig) && Wakeable(s.st[target])
    ensures SendSignal(s, target, sig).ret[target] == Some(Intr)
  {
    hide SendSignal, WakeIfWaiting, DelaysCarried, Core, Mail, WakeInv;
    InvShape(s);
    SignalAccepted(s, target, sig);
    var p := StoreSig(s, sig, Current(s), target);
    WakeCarries(p, target, p.st[target]);
  }

  lemma InterruptedStatus(s: State, owner: nat, irqn: nat, e: DmaEvent)
    requires Inv(s) && owner < s.N() && Wakeable(s.st[owner])
    ensures !IsFull(s.ints[owner]) ==> Irq(s, owner, irqn).ret[owner] == Some(Intr)
    ensures !IsFull(s.dmas[owner]) ==> Dma(s, owner, e).ret[owner] == Some(Intr)
  {
    hide WakeIfWaiting, Inv, DelaysCarried;
    InvShape(s);
    if !IsFull(s.ints[owner]) {
      WakeCarries(s.(ints := s.ints[owner := Push(s.ints[owner], irqn)]), owner, s.st[owner]);
    }
    if !IsFull(s.dmas[owner]) {
      WakeCarries(s.(dmas := s.dmas[owner := Push(s.dmas[owner], e)]), owner, s.st[owner]);
    }
  }

  lemma ReleasedStatus(s: State, mask: bv8, timeout: int, devh: nat)
    requires Inv(s) && TakesIpc(s, mask).Some?
    ensures WaitEvent(s, mask, timeout, devh).ret[TakesIpc(s, mask).value] == Some(Ok)
  {
    hide WaitEvent, TakeIpc, Inv, TakesIpc;
    InvShape(s);
    WaitTakes(s, mask, timeout, devh);
    TakesPending(s, mask);
    TakeIpcEffect(s, TakesIpc(s, mask).value);
  }

  /** A sender whose message is delivered gets OK; a task that any other event wakes gets INTR. */
  lemma RousedStatus(s: State, a: Action)
    requires Inv(s) && EnvOk(s, a) && Legal(s, a) && !a.DoTick? && !a.DoStart? && Rouses(s, a).Some?
    ensures Gate(s, a).ret[Rouses(s, a).value] == Some(if a.DoWaitEvent? then Ok else Intr)
  {
    hide Inv, SendIpc, SendSignal, WaitEvent, Irq, Dma, Reaches;
    InvShape(s);
    match a
    case DoSendIpc(target, len) => SentStatus(s, target, len);
    case DoSendSignal(target, sig) => SignalledStatus(s, target, sig);
    case DoWaitEvent(mask, timeout, devh) => ReleasedStatus(s, mask, timeout, devh);
    case DoIrq(owner, irqn) => InterruptedStatus(s, owner, irqn, DmaEvent(0, 0));
    case DoDma(owner, event) => InterruptedStatus(s, owner, 0, event);
  }

  // ---- Signals over runs --------------------------------------------------------------------------------------

  /** The signal slots after a step. */
  ghost function SignalsAfter(s: State, a: Action): seq<seq<nat>>
    requires WF(s)
  {
    match a
    case DoSendSignal(target, sig) =>
      if SignalRefused(s, target, sig) then s.sigs else Put(s.sigs, target, Current(s), sig)
    case DoWaitEvent(mask, _, _) =>
      if TakesSignal(s, mask).None? then s.sigs else Put(s.sigs, Current(s), TakesSignal(s, mask).value, 0)
    case _ => s.sigs
  }

  lemma SendSignals(s: State, target: nat, len: nat)
    requires WF(s)
    ensures SendIpc(s, target, len).sigs == s.sigs
  {
    hide Elect, WakeIfWaiting, Detect, DelaysCarried;
    var c := Current(s);
    if target < s.N() && target != c {
      var b := SentState(s, target, len);
      SentIs(s, target, len);
      WakeCarries(b, target, b.st[target]);
      ElectCarries(WakeIfWaiting(b, target, b.st[target]));
    }
  }

  lemma SentIs(s: State, target: nat, len: nat)
    requires WF(s) && target < s.N()
    ensures WF(SentState(s, target, len))
    ensures SentState(s, target, len) ==
            SetRet(SetState(s.(ipcs := Put(s.ipcs, target, Current(s), len)), Current(s), IpcSendBlocked), Current(s),
                   NonSense)
              .(sentTo := s.sentTo[Current(s) := target])
  {
  }

  lemma SignalSignals(s: State, target: nat, sig: nat)
    requires Inv(s)
    ensures SendSignal(s, target, sig).sigs == SignalsAfter(s, DoSendSignal(target, sig))
  {
    hide SendSignal, WakeIfWaiting, DelaysCarried, Core, Mail, WakeInv;
    InvShape(s);
    if SignalRefused(s, target, sig) {
      SignalRefusal(s, target, sig);
    } else {
      SignalAccepted(s, target, sig);
      var p := StoreSig(s, sig, Current(s), target);
      WakeCarries(p, target, p.st[target]);
    }
  }

  lemma WaitSignals(s: State, mask: bv8, timeout: int, devh: nat)
    requires Inv(s)
    ensures WaitEvent(s, mask, timeout, devh).sigs == SignalsAfter(s, DoWaitEvent(mask, timeout, devh))
  {
    if TakesSignal(s, mask).Some? {
      hide WaitEvent, Inv, Decodes, Le32, FromLe32;
      SignalDelivered(s, mask, timeout, devh);
    } else {
      hide Elect, Schedule, Inv;
      WaitSchedules(s, mask);
      if NothingToTake(s, mask) && timeout != -1 {
        ElectCarries(WaitingState(s, mask, timeout));
      }
    }
  }

  /** Releasing a sender and electing do not concern signals. */
  lemma WaitSchedules(s: State, mask: bv8)
    requires WF(s)
    ensures TakesIpc(s, mask).Some? ==> TakeIpc(s, Current(s), TakesIpc(s, mask).value).sigs == s.sigs
  {
  }

  lemma OtherSignals(s: State, a: Action)
    requires WF(s) && !a.DoTick? && !a.DoSendIpc? && !a.DoSendSignal? && !a.DoWaitEvent?
    ensures Gate(s, a).sigs == s.sigs
  {
    hide Elect, Schedule, WakeIfWaiting, DelaysCarried;
    match a
    case DoSleep(ms, mode) => SleepSignals(s, ms, mode);
    case DoExit(result) =>
      var c := Current(s);
      var e := s.(code := s.code[c := result]);
      ElectCarries(SetRet(SetState(e, c, if result != 0 then Aborting else Finished), c, NonSense));
    case DoYield => ElectCarries(s);
    case DoFault => ElectCarries(SetState(s, Current(s), Fault));
    case DoStart(target, _) => ScheduleSignals(s, target);
    case DoIrq(owner, irqn) =>
      if owner < s.N() && !IsFull(s.ints[owner]) {
        WakeCarries(s.(ints := s.ints[owner := Push(s.ints[owner], irqn)]), owner, s.st[owner]);
      }
    case DoDma(owner, e) =>
      if owner < s.N() && !IsFull(s.dmas[owner]) {
        WakeCarries(s.(dmas := s.dmas[owner := Push(s.dmas[owner], e)]), owner, s.st[owner]);
      }
    case _ =>
  }

  lemma SleepSignals(s: State, ms: nat, mode: nat)
    requires WF(s)
    ensures Sleep(s, ms, mode).sigs == s.sigs
  {
  }

  lemma ScheduleSignals(s: State, t: nat)
    requires WF(s)
    ensures Schedule(s, t).sigs == s.sigs
  {
  }

  lemma SignalsStep(s: State, a: Action)
    requires Steady(s) && EnvOk(s, a) && Legal(s, a) && !Trips(s, a) && !a.DoTick?
    ensures Step(s, a).sigs == SignalsAfter(s, a)
  {
    hide Inv, Legal, EnvOk, Step, SendIpc, SendSignal, WaitEvent, Sleep, Exit, Yield, UserFault, Start;
    hide SetAlarm, StopAlarm, Irq, Dma;
    InvShape(s);
    StepKeeps(s, a);
    HandOffFrame(Gate(s, a));
    match a
    case DoSendIpc(target, len) => SendSignals(s, target, len);
    case DoSendSignal(target, sig) => SignalSignals(s, target, sig);
    case DoWaitEvent(mask, timeout, devh) => WaitSignals(s, mask, timeout, devh);
    case DoWrite(_) =>
      WriteSignals(s, a);
    case _ => OtherSignals(s, a);
  }

  lemma WriteSignals(s: State, a: Action)
    requires Inv(s) && a.DoWrite?
    ensures Step(s, a).sigs == s.sigs
  {
  }

  /** This step hands the signal of task `src` to task `dst`. */
  ghost predicate TakesFrom(s: State, a: Action, dst: nat, src: nat)
    requires WF(s)
  {
    a.DoWaitEvent? && Current(s) == dst && TakesSignal(s, a.mask) == Some(src)
  }

  ghost predicate SignalPending(s: State, dst: nat, src: nat, sig: nat) {
    dst < |s.sigs| && src < |s.sigs[dst]| && s.sigs[dst][src] == sig != 0
  }

  /** A pending signal stays, with its number, until its receiver is given it. */
  lemma SignalKept(s: State, a: Action, q: State, dst: nat, src: nat, sig: nat)
    requires Steady(s) && Next(s, a, q) && !Trips(s, a)
    requires dst < s.N() && src < s.N() && SignalPending(s, dst, src, sig)
    ensures if TakesFrom(s, a, dst, src) then !SignalPending(q, dst, src, sig) else SignalPending(q, dst, src, sig)
  {
    hide Step, Inv, Legal, EnvOk, TakesSignal, Trips;
    InvShape(s);
    if a.DoTick? {
      TickStepCarries(s);
    } else {
      SignalsStep(s, a);
    }
  }

  /** The step puts signal `sig` of task `src` into the free slot of task `dst`: `src` sends it, or
      an alarm of `src` rings. */
  ghost predicate Raises(s: State, a: Action, dst: nat, src: nat, sig: nat)
    requires WF(s)
  {
    || (a == DoSendSignal(dst, sig) && Current(s) == src)
    || (a.DoTick? && src == dst && sig == SIGNAL_ALARM && RingsFor(s.alarms, src, |s.alarms|))
  }

  /** A signal that is pending after a step was raised by it, or was pending before and not taken. */
  lemma SignalWas(s: State, a: Action, q: State, dst: nat, src: nat, sig: nat)
    requires Steady(s) && Next(s, a, q) && !Trips(s, a)
    requires dst < s.N() && src < s.N() && SignalPending(q, dst, src, sig)
    ensures if s.sigs[dst][src] == 0 then Raises(s, a, dst, src, sig) else SignalPending(s, dst, src, sig)
  {
    hide Step, Inv, Legal, EnvOk, Trips, RingsFor, Misfired, DueTo, AgedTo;
    InvShape(s);
    if a.DoTick? {
      TickStepCarries(s);
    } else {
      SignalsStep(s, a);
    }
  }

  /** The signal was raised at step `j` and has been pending from then to `k`. */
  ghost predicate RaisedAt(trace: seq<State>, acts: seq<Action>, dst: nat, src: nat, sig: nat, j: nat, k: nat) {
    && j < k <= |acts| < |trace| && WF(trace[j]) && Raises(trace[j], acts[j], dst, src, sig)
    && forall n :: j < n <= k ==> SignalPending(trace[n], dst, src, sig)
  }

  /** Every pending signal was raised earlier in the run, by its sender or an alarm of its owner, with
      its number. */
  lemma {:induction false} SignalOrigin(trace: seq<State>, acts: seq<Action>, dst: nat, src: nat, sig: nat, k: nat)
    returns (j: nat)
    requires IsRun(trace, acts) && Steady(trace[0]) && k <= |acts| && !trace[k].panicked
    requires dst < trace[0].N() && src < trace[0].N() && WF(trace[0]) && trace[0].sigs[dst][src] == 0
    requires SignalPending(trace[k], dst, src, sig)
    ensures RaisedAt(trace, acts, dst, src, sig, j, k)
  {
    hide IsRun, Next, Inv, Clear, Trips, Raises;
    RunShape(trace, acts);
    if k == 0 {
      assert false;
    } else {
      RunStep(trace, acts, k - 1);
      InvShape(trace[k - 1]);
      RunMeta(trace, acts, k - 1);
      SignalWas(trace[k - 1], acts[k - 1], trace[k], dst, src, sig);
      if trace[k - 1].sigs[dst][src] == 0 {
        j := k - 1;
      } else {
        j := SignalOrigin(trace, acts, dst, src, sig, k - 1);
      }
    }
  }

  lemma TakenSignal(s: State, a: Action, dst: nat, src: nat)
    requires Steady(s) && EnvOk(s, a) && Legal(s, a) && !Trips(s, a) && TakesFrom(s, a, dst, src)
    ensures dst < s.N() && src < s.N() && s.sigs[dst][src] != 0
    ensures var q := Step(s, a);
            q.sigs[dst][src] == 0 && Decodes(q.exch[dst], 2, s.meta[src].handle, Le32(s.sigs[dst][src]))
  {
    hide Inv, Step, WaitEvent, Decodes, Le32, FromLe32, Trips, TakesSignal;
    InvShape(s);
    SignalDelivered(s, a.mask, a.timeout, a.devh);
    StepKeeps(s, a);
    HandOffFrame(Gate(s, a));
  }

  /** End to end: the signal a task is given at step `k` is decoded with the number and the sender
      with which it was raised at some step `j`, and it is given once. */
  lemma SignalIntegrity(trace: seq<State>, acts: seq<Action>, dst: nat, src: nat, k: nat) returns (j: nat, sig: nat)
    requires IsRun(trace, acts) && Steady(trace[0]) && k < |acts| && !trace[k + 1].panicked
    requires dst < trace[0].N() && src < trace[0].N() && WF(trace[0]) && trace[0].sigs[dst][src] == 0
    requires WF(trace[k]) && TakesFrom(trace[k], acts[k], dst, src)
    ensures RaisedAt(trace, acts, dst, src, sig, j, k) && dst < |trace[k + 1].exch| && src < |trace[k].meta|
    ensures Decodes(trace[k + 1].exch[dst], 2, trace[k].meta[src].handle, Le32(sig))
    ensures !SignalPending(trace[k + 1], dst, src, sig)
  {
    hide IsRun, Inv, Clear, Trips, Step, Legal, EnvOk, TakesFrom, Decodes, RaisedAt;
    RunStep(trace, acts, k);
    InvShape(trace[k + 1]);
    RunMeta(trace, acts, k);
    TakenSignal(trace[k], acts[k], dst, src);
    sig := trace[k].sigs[dst][src];
    j := SignalOrigin(trace, acts, dst, src, sig, k);
  }

  /** Over any run, a signal is neither lost nor overwritten before its receiver is given it. */
  lemma {:induction false} SignalKeptRun(trace: seq<State>, acts: seq<Action>, dst: nat, src: nat, sig: nat,
                                         from: nat, k: nat)
    requires IsRun(trace, acts) && Steady(trace[0]) && from <= k <= |acts| && !trace[k].panicked
    requires dst < |trace[from].meta| && src < |trace[from].meta| && SignalPending(trace[from], dst, src, sig)
    requires forall n :: from <= n < k ==>
               Next(trace[n], acts[n], trace[n + 1]) && !TakesFrom(trace[n], acts[n], dst, src)
    ensures SignalPending(trace[k], dst, src, sig) && trace[k].meta == trace[from].meta
    decreases k
  {
    hide IsRun, Inv, Step, Legal, EnvOk, TakesFrom, SignalPending, Trips;
    RunShape(trace, acts);
    if k > from {
      RunStep(trace, acts, k - 1);
      SignalKeptRun(trace, acts, dst, src, sig, from, k - 1);
      assert Next(trace[k - 1], acts[k - 1], trace[k - 1 + 1]);
      SignalKept(trace[k - 1], acts[k - 1], trace[k], dst, src, sig);
    }
  }
}
