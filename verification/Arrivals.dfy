/** Interrupts and DMA events from the step that raises them to the task that decodes them. */
module Arrivals {
  import opened Slots
  import opened Rings
  import opened Exchange
  import opened IpcGraph
  import opened Rrmq
  import opened KernelSpec
  import opened Invariants
  import opened GateProofs
  import opened EventProofs
  import opened TickProofs
  import opened Protocol
  import opened Moves
  import opened Carriage
  import opened Delivery
  import opened Columns

  // ---- Raising an event ------------------------------------------------------------------------------------

  lemma IrqRing(s: State, owner: nat, irqn: nat)
    requires WF(s) && owner < s.N() && !IsFull(s.ints[owner])
    ensures Irq(s, owner, irqn).ints == s.ints[owner := Push(s.ints[owner], irqn)]
  {
    hide WakeIfWaiting, Push;
    WakeQueues(s.(ints := s.ints[owner := Push(s.ints[owner], irqn)]), owner, s.st[owner]);
  }

  lemma DmaRing(s: State, owner: nat, e: DmaEvent)
    requires WF(s) && owner < s.N() && !IsFull(s.dmas[owner])
    ensures Dma(s, owner, e).dmas == s.dmas[owner := Push(s.dmas[owner], e)]
  {
    hide WakeIfWaiting, Push;
    WakeQueues(s.(dmas := s.dmas[owner := Push(s.dmas[owner], e)]), owner, s.st[owner]);
  }

  /** An interrupt joins the end of its owner's ring, under its number, and no other ring changes. */
  lemma IrqArrives(s: State, owner: nat, irqn: nat)
    requires Steady(s) && Legal(s, DoIrq(owner, irqn)) && !Trips(s, DoIrq(owner, irqn))
    ensures var q := Step(s, DoIrq(owner, irqn));
            && Contents(q.ints[owner]) == Contents(s.ints[owner]) + [irqn]
            && (forall t :: 0 <= t < s.N() && t != owner ==> q.ints[t] == s.ints[t]) && q.dmas == s.dmas
  {
    hide Inv, Step, Irq, Trips;
    InvShape(s);
    IrqRing(s, owner, irqn);
    IrqQueues(s, owner, irqn);
    PushFifo(s.ints[owner], irqn);
    StepQueues(s, DoIrq(owner, irqn));
  }

  /** A DMA event joins the end of its owner's ring, and no other ring changes. */
  lemma DmaArrives(s: State, owner: nat, e: DmaEvent)
    requires Steady(s) && Legal(s, DoDma(owner, e)) && !Trips(s, DoDma(owner, e))
    ensures var q := Step(s, DoDma(owner, e));
            && Contents(q.dmas[owner]) == Contents(s.dmas[owner]) + [e]
            && (forall t :: 0 <= t < s.N() && t != owner ==> q.dmas[t] == s.dmas[t]) && q.ints == s.ints
  {
    hide Inv, Step, Dma, Trips;
    InvShape(s);
    DmaRing(s, owner, e);
    DmaQueues(s, owner, e);
    PushFifo(s.dmas[owner], e);
    StepQueues(s, DoDma(owner, e));
  }

  // ---- Receiving an event -----------------------------------------------------------------------------------

  /** The event in the area of task `t` after the gate. */
  function Reads(s: State, a: Action, t: nat): (r: Decoded)
    requires WF(s) && t < s.N()
  {
    FromKernel(Gate(s, a).exch[t], MAX_PAYLOAD)
  }

  /** Task `t` waits, is answered OK, and decodes an event of this kind. */
  predicate Receives(s: State, a: Action, t: nat, kind: byte) {
    && WF(s) && t < s.N() && a.DoWaitEvent? && Current(s) == t && Gate(s, a).ret[t] == Some(Ok)
    && Reads(s, a, t).Received? && Reads(s, a, t).event.kind == kind
  }

  lemma ReadsSignal(s: State, src: nat)
    requires WF(s) && src < s.N()
    ensures var q, c := TakeSig(s, Current(s), src), Current(s);
            q.ret[c] == Some(Ok) && FromKernel(q.exch[c], MAX_PAYLOAD).Received? &&
            FromKernel(q.exch[c], MAX_PAYLOAD).event.kind == 2
  {
    EventArrives(s.exch[Current(s)], 2, s.meta[src].handle, Le32(s.sigs[Current(s)][src] % 256), MAX_PAYLOAD);
    hide FromKernel, Le32, WriteEvent;
  }

  lemma ReadsInterrupt(s: State, devh: nat)
    requires WF(s)
    ensures var q, c := TakeInt(s, Current(s), devh), Current(s);
            && q.ret[c] == Some(Ok)
            && FromKernel(q.exch[c], MAX_PAYLOAD) ==
               Received(Event(4, 4, devh % 0x1_0000_0000, Le32(s.ints[c].buf[s.ints[c].bottom])))
  {
    var c := Current(s);
    EventArrives(s.exch[c], 4, devh, Le32(s.ints[c].buf[s.ints[c].bottom]), MAX_PAYLOAD);
    hide FromKernel, Le32, WriteEvent, PopClear;
  }

  lemma ReadsDma(s: State)
    requires WF(s)
    ensures var q, c := TakeDma(s, Current(s)), Current(s);
            var e := s.dmas[c].buf[s.dmas[c].bottom];
            && q.ret[c] == Some(Ok)
            && FromKernel(q.exch[c], MAX_PAYLOAD) ==
               Received(Event(8, 1, e.stream % 0x1_0000_0000, [e.event % 256]))
  {
    var c := Current(s);
    var e := s.dmas[c].buf[s.dmas[c].bottom];
    EventArrives(s.exch[c], 8, e.stream, [e.event % 256], MAX_PAYLOAD);
    hide FromKernel, WriteEvent, Pop;
  }

  lemma ReadsMessage(s: State, src: nat)
    requires WF(s) && src < s.N()
    ensures var q, c := TakeIpc(s, Current(s), src), Current(s);
            q.ret[c] == Some(Ok) && FromKernel(q.exch[c], MAX_PAYLOAD).Received? &&
            FromKernel(q.exch[c], MAX_PAYLOAD).event.kind == 1
  {
    var c := Current(s);
    EventArrives(s.exch[c], 1, s.meta[src].handle, Payload(s, c, src), MAX_PAYLOAD);
    hide FromKernel, WriteEvent, Payload, Insert, CanSchedule;
  }

  lemma ReadsNothing(s: State, mask: bv8, timeout: int)
    requires WF(s)
    ensures SetRet(s, Current(s), Again).ret[Current(s)] != Some(Ok)
    ensures Elect(WaitingState(s, mask, timeout)).ret[Current(s)] != Some(Ok)
  {
    hide ElectSched, DelayHasRoom;
  }

  lemma GateWait(s: State, mask: bv8, timeout: int, devh: nat)
    requires WF(s)
    ensures Gate(s, DoWaitEvent(mask, timeout, devh)) == WaitEvent(s, mask, timeout, devh)
  {
  }

  /** The kind a task decodes is the kind that was delivered. */
  lemma ReceivedKind(s: State, mask: bv8, timeout: int, devh: nat)
    requires WF(s)
    ensures var a, c := DoWaitEvent(mask, timeout, devh), Current(s);
            && (Receives(s, a, c, 4) <==> TakesInterrupt(s, mask))
            && (Receives(s, a, c, 8) <==> TakesDma(s, mask))
            && (TakesInterrupt(s, mask) ==> Reads(s, a, c).event.data == Le32(s.ints[c].buf[s.ints[c].bottom]))
            && (TakesDma(s, mask) ==>
                  var e := s.dmas[c].buf[s.dmas[c].bottom];
                  Reads(s, a, c).event.source == e.stream % 0x1_0000_0000
                  && Reads(s, a, c).event.data == [e.event % 256])
  {
    WaitCases(s, mask, timeout, devh);
    TakesOne(s, mask);
    GateWait(s, mask, timeout, devh);
    hide Gate, WaitEvent, TakesSignal, TakesInterrupt, TakesDma, TakesIpc, TakeSig, TakeInt, TakeDma, TakeIpc;
    hide FromKernel, Le32, Elect, NothingToTake, WF, WaitingState, SetRet;
    if TakesSignal(s, mask).Some? {
      ReadsSignal(s, TakesSignal(s, mask).value);
    } else if TakesInterrupt(s, mask) {
      ReadsInterrupt(s, devh);
    } else if TakesDma(s, mask) {
      ReadsDma(s);
    } else if TakesIpc(s, mask).Some? {
      ReadsMessage(s, TakesIpc(s, mask).value);
    } else {
      ReadsNothing(s, mask, timeout);
    }
  }

  // ---- Interrupts over runs ---------------------------------------------------------------------------------

  function Word(v: nat): nat {
    v % 0x1_0000_0000
  }

  /** The number in the event task `t` decodes. */
  function NumberRead(s: State, a: Action, t: nat): nat
    requires Receives(s, a, t, 4)
  {
    if |Reads(s, a, t).event.data| == 4 then FromLe32(Reads(s, a, t).event.data) else 0
  }

  /** What the step does to the interrupts of task `t`: one is raised for it, or it receives one. */
  function InterruptOp(s: State, a: Action, t: nat): seq<RingOp<nat>> {
    if a.DoIrq? && a.owner == t then [DoPush(a.irqn)] else if Receives(s, a, t, 4) then [DoLoad] else []
  }

  function InterruptOps(trace: seq<State>, acts: seq<Action>, t: nat, i: nat, k: nat): seq<RingOp<nat>>
    requires i <= k <= |acts| <= |trace|
    decreases k - i
  {
    if i == k then [] else InterruptOp(trace[i], acts[i], t) + InterruptOps(trace, acts, t, i + 1, k)
  }

  /** The interrupt numbers task `t` decodes at steps `i` to `k`, in order. */
  function NumbersRead(trace: seq<State>, acts: seq<Action>, t: nat, i: nat, k: nat): seq<nat>
    requires i <= k <= |acts| <= |trace|
    decreases k - i
  {
    if i == k then []
    else (if Receives(trace[i], acts[i], t, 4) then [NumberRead(trace[i], acts[i], t)] else []) +
         NumbersRead(trace, acts, t, i + 1, k)
  }

  /** The interrupts raised for task `t` at steps `i` to `k`, in order. */
  function Raised(acts: seq<Action>, t: nat, i: nat, k: nat): seq<nat>
    requires i <= k <= |acts|
    decreases k - i
  {
    if i == k then []
    else (if acts[i].DoIrq? && acts[i].owner == t then [acts[i].irqn] else []) + Raised(acts, t, i + 1, k)
  }

  lemma {:induction false} RaisedPushed(trace: seq<State>, acts: seq<Action>, t: nat, i: nat, k: nat)
    requires i <= k <= |acts| <= |trace|
    ensures Pushed(InterruptOps(trace, acts, t, i, k)) == Raised(acts, t, i, k)
    decreases k - i
  {
    hide Receives;
    if i < k {
      RaisedPushed(trace, acts, t, i + 1, k);
      var op, rest := InterruptOp(trace[i], acts[i], t), InterruptOps(trace, acts, t, i + 1, k);
      if |op| == 1 {
        assert (op + rest)[1..] == rest;
      } else {
        assert op + rest == rest;
      }
    }
  }

  /** The ring of task `t` after one step. */
  lemma InterruptStep(s: State, a: Action, t: nat)
    requires Steady(s) && EnvOk(s, a) && Legal(s, a) && !Trips(s, a) && t < s.N()
    ensures var op, r := InterruptOp(s, a, t), s.ints[t];
            && Step(s, a).ints[t] == (if op == [] then r else ApplyInterrupt(r, op[0]))
            && (op != [] && op[0].DoPush? ==> !IsFull(r))
            && (Receives(s, a, t, 4) ==>
                  op == [DoLoad] && !IsEmpty(r) && NumberRead(s, a, t) == Word(r.buf[r.bottom]))
  {
    hide Inv, Gate, Step, Trips, EnvOk, PopClear, Push, Reads, TakesDma, TakesInterrupt;
    InvShape(s);
    StepQueues(s, a);
    if a.DoTick? {
      TickInts(s);
    } else if a.DoWaitEvent? {
      WaitInts(s, a, t);
    } else {
      GateQueues(s, a);
      if a.DoIrq? {
        IrqGate(s, a);
        IrqRing(s, a.owner, a.irqn);
      }
    }
  }

  lemma IrqGate(s: State, a: Action)
    requires WF(s)
    ensures a.DoIrq? ==> Gate(s, a) == Irq(s, a.owner, a.irqn)
    ensures a.DoDma? ==> Gate(s, a) == Dma(s, a.owner, a.event)
  {
  }

  lemma TickInts(s: State)
    requires Steady(s) && !Trips(s, DoTick)
    ensures Step(s, DoTick).ints == s.ints && Step(s, DoTick).dmas == s.dmas
  {
    hide Step, Inv, Trips, Misfired, DueTo, AgedTo;
    TickStepCarries(s);
  }

  lemma WaitInts(s: State, a: Action, t: nat)
    requires WF(s) && a.DoWaitEvent? && t < s.N()
    ensures var r := s.ints[t];
            && Gate(s, a).ints[t] == (if Receives(s, a, t, 4) then ApplyInterrupt(r, DoLoad) else r)
            && (Receives(s, a, t, 4) ==> !IsEmpty(r) && NumberRead(s, a, t) == Word(r.buf[r.bottom]))
  {
    var c := Current(s);
    TakesPresent(s, a.mask);
    hide TakesDma, TakesInterrupt, Reads, PopClear, Pop, WaitEvent;
    ReceivedKind(s, a.mask, a.timeout, a.devh);
    WaitQueues(s, a.mask, a.timeout, a.devh);
    GateWait(s, a.mask, a.timeout, a.devh);
    hide Gate;
    if Receives(s, a, t, 4) {
      Le32Word(s.ints[t].buf[s.ints[t].bottom]);
    }
  }

  lemma TakesPresent(s: State, mask: bv8)
    requires WF(s)
    ensures TakesInterrupt(s, mask) ==> !IsEmpty(s.ints[Current(s)])
    ensures TakesDma(s, mask) ==> !IsEmpty(s.dmas[Current(s)])
  {
  }

  function Words(ns: seq<nat>): seq<nat> {
    if ns == [] then [] else [Word(ns[0])] + Words(ns[1..])
  }

  lemma {:induction false} InterruptRun(trace: seq<State>, acts: seq<Action>, t: nat, i: nat, k: nat)
    requires IsRun(trace, acts) && Steady(trace[0]) && i <= k <= |acts| && !trace[k].panicked && t < trace[0].N()
    ensures |trace| == |acts| + 1 && trace[i].meta == trace[0].meta
    ensures t < |trace[i].ints| && ValidRing(trace[i].ints[t])
    ensures var ops := InterruptOps(trace, acts, t, i, k);
            && NoInterruptOverrun(trace[i].ints[t], ops)
            && NumbersRead(trace, acts, t, i, k) == Words(LoadedInterrupts(trace[i].ints[t], ops))
    decreases k - i
  {
    hide IsRun, Inv, Clear, Trips, Step, EnvOk, Legal, Receives, IsFull, IsEmpty, ApplyInterrupt;
    RunShape(trace, acts);
    RunTasks(trace, acts, i, k);
    if i < k {
      EarlierCalm(trace, acts, i + 1, k);
      RunStep(trace, acts, i);
      InterruptRun(trace, acts, t, i + 1, k);
      InterruptStep(trace[i], acts[i], t);
      InterruptFirst(trace, acts, t, i, k);
    }
  }

  lemma RunTasks(trace: seq<State>, acts: seq<Action>, i: nat, k: nat)
    requires IsRun(trace, acts) && Steady(trace[0]) && i <= k <= |acts| && !trace[k].panicked
    ensures |trace| == |acts| + 1 && WF(trace[i]) && trace[i].meta == trace[0].meta
  {
    hide IsRun, Inv, Clear;
    RunShape(trace, acts);
    EarlierCalm(trace, acts, i, k);
    RunKeeps(trace, acts, i);
    InvShape(trace[i]);
    RunMeta(trace, acts, i);
  }

  /** One step in front of a run of the ring. */
  lemma InterruptFirst(trace: seq<State>, acts: seq<Action>, t: nat, i: nat, k: nat)
    requires i < k <= |acts| < |trace| && t < |trace[i].ints| && t < |trace[i + 1].ints|
    requires ValidRing(trace[i].ints[t]) && ValidRing(trace[i + 1].ints[t])
    requires var op, r := InterruptOp(trace[i], acts[i], t), trace[i].ints[t];
             && trace[i + 1].ints[t] == (if op == [] then r else ApplyInterrupt(r, op[0]))
             && (op != [] && op[0].DoPush? ==> !IsFull(r))
             && (Receives(trace[i], acts[i], t, 4) ==>
                   op == [DoLoad] && !IsEmpty(r) && NumberRead(trace[i], acts[i], t) == Word(r.buf[r.bottom]))
    requires var ops := InterruptOps(trace, acts, t, i + 1, k);
             && NoInterruptOverrun(trace[i + 1].ints[t], ops)
             && NumbersRead(trace, acts, t, i + 1, k) == Words(LoadedInterrupts(trace[i + 1].ints[t], ops))
    ensures var ops := InterruptOps(trace, acts, t, i, k);
            && NoInterruptOverrun(trace[i].ints[t], ops)
            && NumbersRead(trace, acts, t, i, k) == Words(LoadedInterrupts(trace[i].ints[t], ops))
  {
    hide Receives, IsFull, IsEmpty, ApplyInterrupt, NumberRead, Word;
    var op, rest := InterruptOp(trace[i], acts[i], t), InterruptOps(trace, acts, t, i + 1, k);
    if op == [] {
      assert op + rest == rest;
    } else {
      assert (op + rest)[1..] == rest;
      var r, loaded := trace[i].ints[t], LoadedInterrupts(trace[i + 1].ints[t], rest);
      if Receives(trace[i], acts[i], t, 4) {
        assert ([r.buf[r.bottom]] + loaded)[1..] == loaded;
      } else {
        assert [] + loaded == loaded;
      }
    }
  }

  ghost predicate AllWords(ns: seq<nat>) {
    forall i :: 0 <= i < |ns| ==> ns[i] < 0x1_0000_0000
  }

  lemma {:induction false} WordsSame(ns: seq<nat>)
    requires AllWords(ns)
    ensures Words(ns) == ns
  {
    if ns != [] {
      WordsSame(ns[1..]);
    }
  }

  lemma {:induction false} ReadWords(taken: seq<Taken>)
    requires AllWords(Numbers(taken))
    ensures AllWords(ReadAs(taken))
  {
    if taken != [] {
      assert Numbers(taken)[0] == taken[0].number && Numbers(taken)[1..] == Numbers(taken[1..]);
      ReadWords(taken[1..]);
    }
  }

  lemma QueueWords(ops: seq<RingOp<nat>>)
    requires AllWords(Pushed(ops))
    ensures AllWords(ReadAs(QueueTakes([], false, ops)))
  {
    var taken := QueueTakes([], false, ops);
    QueueTakesInOrder([], false, ops);
    assert Pushed(ops) == Numbers(taken) + QueueLeft([], ops);
    assert AllWords(Numbers(taken)) by {
      assert forall i :: 0 <= i < |Numbers(taken)| ==> Numbers(taken)[i] == Pushed(ops)[i];
    }
    ReadWords(taken);
  }

  /** Over any kernel run that starts with an empty ring, the interrupts task `t` decodes are those
      raised for it, in order, none repeated and none but the last ones missing; one is decoded under
      its own number exactly when it was not yet waiting when the one before it was received, and
      under number 0 otherwise. */
  lemma InterruptsReachTask(trace: seq<State>, acts: seq<Action>, t: nat, k: nat)
    requires IsRun(trace, acts) && Steady(trace[0]) && k <= |acts| && !trace[k].panicked && t < trace[0].N()
    requires WF(trace[0]) && IsEmpty(trace[0].ints[t]) && AllWords(Raised(acts, t, 0, k))
    ensures |trace| == |acts| + 1
    ensures var ops := InterruptOps(trace, acts, t, 0, k);
            var taken := QueueTakes([], false, ops);
            && NumbersRead(trace, acts, t, 0, k) == ReadAs(taken)
            && Raised(acts, t, 0, k) == Numbers(taken) + QueueLeft([], ops)
  {
    hide IsRun, Inv, Clear, NumbersRead;
    RunShape(trace, acts);
    var ops, r := InterruptOps(trace, acts, t, 0, k), trace[0].ints[t];
    InterruptRun(trace, acts, t, 0, k);
    RingSize(r);
    InterruptsOfRun(r, [], false, ops);
    RaisedPushed(trace, acts, t, 0, k);
    QueueWords(ops);
    WordsSame(ReadAs(QueueTakes([], false, ops)));
    QueueTakesInOrder([], false, ops);
  }

  // ---- DMA events over runs ----------------------------------------------------------------------------------

  function DmaWord(e: DmaEvent): DmaEvent {
    DmaEvent(Word(e.stream), e.event % 256)
  }

  /** The DMA event task `t` decodes. */
  function DmaRead(s: State, a: Action, t: nat): DmaEvent
    requires Receives(s, a, t, 8)
  {
    var e := Reads(s, a, t).event;
    DmaEvent(e.source, if |e.data| == 1 then e.data[0] else 0)
  }

  function DmaOp(s: State, a: Action, t: nat): seq<RingOp<DmaEvent>> {
    if a.DoDma? && a.owner == t then [DoPush(a.event)] else if Receives(s, a, t, 8) then [DoLoad] else []
  }

  function DmaOps(trace: seq<State>, acts: seq<Action>, t: nat, i: nat, k: nat): seq<RingOp<DmaEvent>>
    requires i <= k <= |acts| <= |trace|
    decreases k - i
  {
    if i == k then [] else DmaOp(trace[i], acts[i], t) + DmaOps(trace, acts, t, i + 1, k)
  }

  /** The DMA events task `t` decodes at steps `i` to `k`, in order. */
  function DmasRead(trace: seq<State>, acts: seq<Action>, t: nat, i: nat, k: nat): seq<DmaEvent>
    requires i <= k <= |acts| <= |trace|
    decreases k - i
  {
    if i == k then []
    else (if Receives(trace[i], acts[i], t, 8) then [DmaRead(trace[i], acts[i], t)] else []) +
         DmasRead(trace, acts, t, i + 1, k)
  }

  /** The DMA events raised for task `t` at steps `i` to `k`, in order. */
  function DmasRaised(acts: seq<Action>, t: nat, i: nat, k: nat): seq<DmaEvent>
    requires i <= k <= |acts|
    decreases k - i
  {
    if i == k then []
    else (if acts[i].DoDma? && acts[i].owner == t then [acts[i].event] else []) + DmasRaised(acts, t, i + 1, k)
  }

  lemma {:induction false} DmasRaisedPushed(trace: seq<State>, acts: seq<Action>, t: nat, i: nat, k: nat)
    requires i <= k <= |acts| <= |trace|
    ensures Pushed(DmaOps(trace, acts, t, i, k)) == DmasRaised(acts, t, i, k)
    decreases k - i
  {
    hide Receives;
    if i < k {
      DmasRaisedPushed(trace, acts, t, i + 1, k);
      var op, rest := DmaOp(trace[i], acts[i], t), DmaOps(trace, acts, t, i + 1, k);
      if |op| == 1 {
        assert (op + rest)[1..] == rest;
      } else {
        assert op + rest == rest;
      }
    }
  }

  lemma WaitDmas(s: State, a: Action, t: nat)
    requires WF(s) && a.DoWaitEvent? && t < s.N()
    ensures var r := s.dmas[t];
            && Gate(s, a).dmas[t] == (if Receives(s, a, t, 8) then Apply(r, DoLoad) else r)
            && (Receives(s, a, t, 8) ==> !IsEmpty(r) && DmaRead(s, a, t) == DmaWord(r.buf[r.bottom]))
  {
    TakesPresent(s, a.mask);
    hide TakesDma, TakesInterrupt, Reads, PopClear, Pop, WaitEvent;
    ReceivedKind(s, a.mask, a.timeout, a.devh);
    WaitQueues(s, a.mask, a.timeout, a.devh);
    GateWait(s, a.mask, a.timeout, a.devh);
    hide Gate;
  }

  lemma DmaStep(s: State, a: Action, t: nat)
    requires Steady(s) && EnvOk(s, a) && Legal(s, a) && !Trips(s, a) && t < s.N()
    ensures var op, r := DmaOp(s, a, t), s.dmas[t];
            && Step(s, a).dmas[t] == (if op == [] then r else Apply(r, op[0]))
            && (op != [] && op[0].DoPush? ==> !IsFull(r))
            && (Receives(s, a, t, 8) ==>
                  op == [DoLoad] && !IsEmpty(r) && DmaRead(s, a, t) == DmaWord(r.buf[r.bottom]))
  {
    hide Inv, Gate, Step, Trips, EnvOk, Pop, Push, Reads, TakesDma, TakesInterrupt;
    InvShape(s);
    StepQueues(s, a);
    if a.DoTick? {
      TickInts(s);
    } else if a.DoWaitEvent? {
      WaitDmas(s, a, t);
    } else {
      GateQueues(s, a);
      if a.DoDma? {
        IrqGate(s, a);
        DmaRing(s, a.owner, a.event);
      }
    }
  }

  function DmaWords(es: seq<DmaEvent>): seq<DmaEvent> {
    if es == [] then [] else [DmaWord(es[0])] + DmaWords(es[1..])
  }

  lemma {:induction false} DmaWordsJoin(a: seq<DmaEvent>, b: seq<DmaEvent>)
    ensures DmaWords(a + b) == DmaWords(a) + DmaWords(b)
  {
    if a == [] {
      assert a + b == b;
    } else {
      assert (a + b)[1..] == a[1..] + b;
      DmaWordsJoin(a[1..], b);
    }
  }

  lemma {:induction false} DmaRun(trace: seq<State>, acts: seq<Action>, t: nat, i: nat, k: nat)
    requires IsRun(trace, acts) && Steady(trace[0]) && i <= k <= |acts| && !trace[k].panicked && t < trace[0].N()
    ensures |trace| == |acts| + 1 && trace[i].meta == trace[0].meta == trace[k].meta
    ensures t < |trace[i].dmas| && ValidRing(trace[i].dmas[t]) && t < |trace[k].dmas| && ValidRing(trace[k].dmas[t])
    ensures var ops := DmaOps(trace, acts, t, i, k);
            && NoOverrun(trace[i].dmas[t], ops) && Final(trace[i].dmas[t], ops) == trace[k].dmas[t]
            && DmasRead(trace, acts, t, i, k) == DmaWords(Loaded(trace[i].dmas[t], ops))
    decreases k - i
  {
    hide IsRun, Inv, Clear, Trips, Step, EnvOk, Legal, Receives, IsFull, IsEmpty, Apply;
    RunShape(trace, acts);
    RunTasks(trace, acts, i, k);
    RunTasks(trace, acts, k, k);
    if i < k {
      EarlierCalm(trace, acts, i + 1, k);
      RunStep(trace, acts, i);
      DmaRun(trace, acts, t, i + 1, k);
      DmaStep(trace[i], acts[i], t);
      DmaFirst(trace, acts, t, i, k);
    }
  }

  lemma DmaFirst(trace: seq<State>, acts: seq<Action>, t: nat, i: nat, k: nat)
    requires i < k <= |acts| < |trace| && t < |trace[i].dmas| && t < |trace[i + 1].dmas|
    requires ValidRing(trace[i].dmas[t]) && ValidRing(trace[i + 1].dmas[t])
    requires var op, r := DmaOp(trace[i], acts[i], t), trace[i].dmas[t];
             && trace[i + 1].dmas[t] == (if op == [] then r else Apply(r, op[0]))
             && (op != [] && op[0].DoPush? ==> !IsFull(r))
             && (Receives(trace[i], acts[i], t, 8) ==>
                   op == [DoLoad] && !IsEmpty(r) && DmaRead(trace[i], acts[i], t) == DmaWord(r.buf[r.bottom]))
    requires var ops := DmaOps(trace, acts, t, i + 1, k);
             && NoOverrun(trace[i + 1].dmas[t], ops)
             && DmasRead(trace, acts, t, i + 1, k) == DmaWords(Loaded(trace[i + 1].dmas[t], ops))
    ensures var ops := DmaOps(trace, acts, t, i, k);
            && NoOverrun(trace[i].dmas[t], ops)
            && Final(trace[i].dmas[t], ops) == Final(trace[i + 1].dmas[t], DmaOps(trace, acts, t, i + 1, k))
            && DmasRead(trace, acts, t, i, k) == DmaWords(Loaded(trace[i].dmas[t], ops))
  {
    hide Receives, IsFull, IsEmpty, Apply, DmaRead, DmaWord;
    var op, rest := DmaOp(trace[i], acts[i], t), DmaOps(trace, acts, t, i + 1, k);
    if op == [] {
      assert op + rest == rest;
    } else {
      assert (op + rest)[1..] == rest;
      var r, loaded := trace[i].dmas[t], Loaded(trace[i + 1].dmas[t], rest);
      if Receives(trace[i], acts[i], t, 8) {
        assert ([r.buf[r.bottom]] + loaded)[1..] == loaded;
      } else {
        assert [] + loaded == loaded;
      }
    }
  }

  /** Over any kernel run that starts with an empty ring, the DMA events raised for task `t` are the
      ones it has decoded followed by the ones still in its ring: none lost, repeated or reordered. */
  lemma DmasReachTask(trace: seq<State>, acts: seq<Action>, t: nat, k: nat)
    requires IsRun(trace, acts) && Steady(trace[0]) && k <= |acts| && !trace[k].panicked && t < trace[0].N()
    requires WF(trace[0]) && IsEmpty(trace[0].dmas[t])
    ensures |trace| == |acts| + 1 && t < |trace[k].dmas| && ValidRing(trace[k].dmas[t])
    ensures DmaWords(DmasRaised(acts, t, 0, k)) ==
            DmasRead(trace, acts, t, 0, k) + DmaWords(Contents(trace[k].dmas[t]))
  {
    hide IsRun, Inv, Clear, DmasRead;
    RunShape(trace, acts);
    var ops, r := DmaOps(trace, acts, t, 0, k), trace[0].dmas[t];
    DmaRun(trace, acts, t, 0, k);
    RingSize(r);
    RingIsFifo(r, ops);
    DmasRaisedPushed(trace, acts, t, 0, k);
    assert [] + Pushed(ops) == Pushed(ops);
    DmaWordsJoin(Loaded(r, ops), Contents(trace[k].dmas[t]));
  }
}
