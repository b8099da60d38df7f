/** End-to-end integrity of messages over whole runs, and states a task never leaves. */
module Integrity {
  import opened Slots
  import opened Rings
  import opened Exchange
  import opened IpcGraph
  import opened Rrmq
  import opened KernelSpec
  import opened Invariants
  import opened GateProofs
  import opened EventProofs
  import opened TickProofs
  import opened Protocol
  import opened Moves
  import opened Carriage

  /** This step hands the message of task `src` to task `dst`. */
  ghost predicate Delivers(s: State, a: Action, dst: nat, src: nat)
    requires WF(s)
  {
    a.DoWaitEvent? && Current(s) == dst && TakesIpc(s, a.mask) == Some(src)
  }

  /** This step stores a message of `len` bytes from task `src` to task `dst`. */
  ghost predicate Posts(s: State, a: Action, dst: nat, src: nat, len: nat)
    requires WF(s)
  {
    a == DoSendIpc(dst, len) && Current(s) == src && dst != src && len >= 1 && !SendRefused(s, dst, len)
  }

  /** Slot `src` of task `dst` holds a message of `len` bytes, whose text is `text`. */
  ghost predicate Holding(s: State, dst: nat, src: nat, len: nat, text: seq<byte>) {
    && dst < |s.ipcs| && src < |s.ipcs[dst]| && s.ipcs[dst][src] == len && 1 <= len <= MAX_PAYLOAD
    && src < |s.exch| && |s.exch[src]| == AREA_LEN && s.exch[src][..len] == text
    && src < |s.st| && s.st[src] == IpcSendBlocked
  }

  ghost predicate Empty(s: State, dst: nat, src: nat) {
    dst < |s.ipcs| && src < |s.ipcs[dst]| && s.ipcs[dst][src] == 0
  }

  /** The receiver's area holds the message, as the user library decodes it. */
  ghost predicate Arrived(q: State, dst: nat, src: nat, text: seq<byte>) {
    && dst < |q.exch| && |q.exch[dst]| == AREA_LEN && src < |q.meta| && |text| <= MAX_PAYLOAD
    && forall room: nat :: room >= |text| ==>
         FromKernel(q.exch[dst], room) == Received(Event(1, |text|, q.meta[src].handle, text))
  }

  // ---- One step ------------------------------------------------------------------------------------------

  lemma HeldSender(s: State, dst: nat, src: nat, len: nat, text: seq<byte>)
    requires Inv(s) && dst < s.N() && src < s.N() && Holding(s, dst, src, len, text)
    ensures src != Current(s) && src != dst && s.ipcs[dst][src] % 256 > 0
  {
    RunnerReady(s);
    if src == dst {
      ReachesStep(s.ipcs, src, src, src);
    }
  }

  lemma RousedSender(s: State, a: Action, src: nat)
    requires Inv(s) && Legal(s, a) && !a.DoTick? && src < s.N() && s.st[src] == IpcSendBlocked
    requires Rouses(s, a) == Some(src)
    ensures a.DoWaitEvent? && TakesIpc(s, a.mask) == Some(src)
  {
    RousesBlocked(s, a);
  }

  /** A message stays as it is until it is delivered. */
  lemma HoldMove(s: State, a: Action, dst: nat, src: nat, len: nat, text: seq<byte>)
    requires Steady(s) && EnvOk(s, a) && Legal(s, a) && !Trips(s, a) && !a.DoTick? && dst < s.N() && src < s.N()
    requires Holding(s, dst, src, len, text) && !Delivers(s, a, dst, src)
    ensures Holding(Step(s, a), dst, src, len, text)
  {
    hide Step, Inv, EnvOk, Legal, DelaysCarried, AlarmsCarried, StoppedCell, Enqueue, NothingToTake, ToKernel;
    hide SlotsAfter, NewState, Elects, Rouses, ElectSched, Trips;
    InvShape(s);
    HeldSender(s, dst, src, len, text);
    MovedStep(s, a);
    CarriedStep(s, a);
    OtherSlot(s, a, dst, src);
    if Rouses(s, a) == Some(src) {
      RousedSender(s, a, src);
      SenderOwner(s, dst, src);
    }
  }

  lemma SenderOwner(s: State, dst: nat, src: nat)
    requires Inv(s) && dst < s.N() && src < s.N() && s.ipcs[dst][src] != 0 && s.ipcs[Current(s)][src] != 0
    ensures dst == Current(s)
  {
    assert s.sentTo[src] == dst && s.sentTo[src] == Current(s);
  }

  lemma OtherSlot(s: State, a: Action, dst: nat, src: nat)
    requires WF(s) && dst < s.N() && src < s.N() && src != Current(s) && !Delivers(s, a, dst, src)
    ensures SlotsAfter(s, a)[dst][src] == s.ipcs[dst][src]
  {
  }

  /** A tick wakes no task that is neither ready nor waiting. */
  lemma TickSkips(s: State, t: nat)
    requires Inv(s) && t < s.N() && !Waiting(s.st[t]) && s.st[t] != Ready
    ensures !DueTo(s.delays, t, s.size) && !Misfired(s, t)
  {
    MisfiredWaits(s, t);
    hide Misfired;
    NoDelayWhenReady(s.delays, s.st, s.ret, t);
  }

  lemma HoldTick(s: State, dst: nat, src: nat, len: nat, text: seq<byte>)
    requires Steady(s) && !Trips(s, DoTick) && dst < s.N() && src < s.N() && Holding(s, dst, src, len, text)
    ensures Holding(Step(s, DoTick), dst, src, len, text)
  {
    hide Step, Misfired, Trips, Inv, DueTo;
    InvShape(s);
    TickSkips(s, src);
    TickStepCarries(s);
  }

  lemma HoldNext(s: State, a: Action, q: State, dst: nat, src: nat, len: nat, text: seq<byte>)
    requires Steady(s) && Next(s, a, q) && !Trips(s, a) && dst < s.N() && src < s.N() && Holding(s, dst, src, len, text)
    requires !Delivers(s, a, dst, src)
    ensures Holding(q, dst, src, len, text)
  {
    hide Step, Holding, Delivers;
    if a.DoTick? {
      HoldTick(s, dst, src, len, text);
    } else {
      HoldMove(s, a, dst, src, len, text);
    }
  }

  /** A step that fills an empty slot posts a message of the slot's sender. */
  lemma FillMove(s: State, a: Action, dst: nat, src: nat)
    requires WF(s) && Legal(s, a) && dst < s.N() && src < s.N() && Empty(s, dst, src)
    requires SlotsAfter(s, a)[dst][src] != 0
    ensures a.DoSendIpc? && Posts(s, a, dst, src, a.len) && SlotsAfter(s, a)[dst][src] == a.len
    ensures NewState(s, a) == IpcSendBlocked && Rouses(s, a) != Some(src)
  {
  }

  lemma PostedArea(s: State, a: Action, dst: nat, src: nat, len: nat)
    requires Steady(s) && EnvOk(s, a) && Legal(s, a) && !Trips(s, a)
    requires dst < s.N() && src < s.N() && Posts(s, a, dst, src, len)
    ensures Step(s, a).exch == s.exch
  {
    hide Step, Inv, Legal, EnvOk, SendIpc;
    InvShape(s);
    StepKeeps(s, a);
    SentArea(s, dst, len);
    HandOffFrame(Gate(s, a));
  }

  lemma SentArea(s: State, target: nat, len: nat)
    requires WF(s)
    ensures SendIpc(s, target, len).exch == s.exch
  {
  }

  lemma EmptyMove(s: State, a: Action, dst: nat, src: nat)
    requires Steady(s) && EnvOk(s, a) && Legal(s, a) && !Trips(s, a) && !a.DoTick?
    requires dst < s.N() && src < s.N() && Empty(s, dst, src)
    requires !Empty(Step(s, a), dst, src)
    ensures a.DoSendIpc? && Posts(s, a, dst, src, a.len) && Holding(Step(s, a), dst, src, a.len, s.exch[src][..a.len])
  {
    hide Step, Inv, EnvOk, Legal, DelaysCarried, AlarmsCarried, StoppedCell, Enqueue, Posts, NewState, Rouses, Elects;
    InvShape(s);
    MovedStep(s, a);
    CarriedStep(s, a);
    FillMove(s, a, dst, src);
    PostedArea(s, a, dst, src, a.len);
    PostsMeans(s, a, dst, src, a.len);
  }

  lemma PostsMeans(s: State, a: Action, dst: nat, src: nat, len: nat)
    requires WF(s) && Posts(s, a, dst, src, len)
    ensures Current(s) == src && 1 <= len <= MAX_PAYLOAD
  {
  }

  lemma EmptyNext(s: State, a: Action, q: State, dst: nat, src: nat)
    requires Steady(s) && Next(s, a, q) && !Trips(s, a) && dst < s.N() && src < s.N() && Empty(s, dst, src)
    requires !Empty(q, dst, src)
    ensures a.DoSendIpc? && Posts(s, a, dst, src, a.len) && Holding(q, dst, src, a.len, s.exch[src][..a.len])
  {
    hide Step;
    if a.DoTick? {
      TickStepCarries(s);
    } else {
      hide Posts, Holding;
      EmptyMove(s, a, dst, src);
    }
  }

  // ---- Delivery --------------------------------------------------------------------------------------------

  lemma HeldPayload(s: State, dst: nat, src: nat, len: nat, text: seq<byte>)
    requires WF(s) && dst < s.N() && src < s.N() && Holding(s, dst, src, len, text)
    ensures Payload(s, dst, src) == text
  {
  }

  lemma DeliverGate(s: State, a: Action, dst: nat, src: nat, len: nat, text: seq<byte>)
    requires Steady(s) && dst < s.N() && src < s.N() && Delivers(s, a, dst, src) && Holding(s, dst, src, len, text)
    ensures var g := Gate(s, a);
            && g == Delivered(s, dst, src) && Payload(s, dst, src) == text && Current(g) == dst && src != dst
  {
    hide WaitEvent, TakeIpc, Inv, Payload, Core, Settled, Delivered;
    InvShape(s);
    HeldPayload(s, dst, src, len, text);
    HeldSender(s, dst, src, len, text);
    hide Holding;
    WaitTakes(s, a.mask, a.timeout, a.devh);
    TakeIpcEffect(s, src);
    DeliveredCore(s, src);
  }

  lemma WrittenArrives(q: State, dst: nat, src: nat, area: seq<byte>, text: seq<byte>)
    requires dst < |q.exch| && src < |q.meta| && q.meta[src].handle < 0x1_0000_0000
    requires |area| == AREA_LEN && |text| <= MAX_PAYLOAD
    requires q.exch[dst] == WriteEvent(area, 1, q.meta[src].handle, text)
    ensures Arrived(q, dst, src, text)
  {
    forall room: nat | room >= |text|
      ensures FromKernel(q.exch[dst], room) == Received(Event(1, |text|, q.meta[src].handle, text))
    {
      EventRoundTrip(area, 1, q.meta[src].handle, text, room);
    }
  }

  /** A delivery elects nobody, so it never trips over a held task. */
  lemma DeliverCalm(s: State, a: Action, dst: nat, src: nat, len: nat, text: seq<byte>)
    requires Steady(s) && dst < s.N() && src < s.N() && Delivers(s, a, dst, src) && Holding(s, dst, src, len, text)
    ensures !Trips(s, a)
  {
    hide Inv, Gate, Holding;
    DeliverGate(s, a, dst, src, len, text);
  }

  /** A delivery empties the slot, releases the sender with OK, and the receiver decodes exactly
      the sender's bytes. */
  lemma DeliverNext(s: State, a: Action, q: State, dst: nat, src: nat, len: nat, text: seq<byte>)
    requires Steady(s) && Next(s, a, q) && dst < s.N() && src < s.N()
    requires Delivers(s, a, dst, src) && Holding(s, dst, src, len, text)
    ensures !q.panicked && Empty(q, dst, src) && Arrived(q, dst, src, text)
    ensures src < |q.st| && q.st[src] == Ready && src < |q.ret| && q.ret[src] == Some(Ok)
  {
    hide Step, Gate, HandOff, Arrived, Holding, EnvOk, Legal, Inv, Trips, SchedInv;
    InvSched(s);
    DeliverGate(s, a, dst, src, len, text);
    DeliverCalm(s, a, dst, src, len, text);
    StepKeeps(s, a);
    InvCalm(q);
    HandOffFrame(Gate(s, a));
    WrittenArrives(q, dst, src, s.exch[dst], text);
  }

  // ---- Whole runs ---------------------------------------------------------------------------------------------

  /** The message in the slot at `k` was posted at `j`, with the text the sender had stored by
      then, and nobody has been given it since. */
  ghost predicate Origin(trace: seq<State>, acts: seq<Action>, dst: nat, src: nat, j: nat, k: nat)
    requires |trace| == |acts| + 1
  {
    && j < k <= |acts| && WF(trace[j]) && acts[j].DoSendIpc? && Posts(trace[j], acts[j], dst, src, acts[j].len)
    && src < |trace[j].exch| && acts[j].len <= |trace[j].exch[src]|
    && Holding(trace[k], dst, src, acts[j].len, trace[j].exch[src][..acts[j].len])
    && forall m :: j < m < k ==> WF(trace[m]) && !Delivers(trace[m], acts[m], dst, src)
  }

  lemma OriginStart(trace: seq<State>, acts: seq<Action>, dst: nat, src: nat, k: nat)
    requires IsRun(trace, acts) && Steady(trace[0]) && k < |acts| && !trace[k + 1].panicked
    requires dst < trace[k].N() && src < trace[k].N()
    requires Empty(trace[k], dst, src) && !Empty(trace[k + 1], dst, src)
    ensures Origin(trace, acts, dst, src, k, k + 1)
  {
    hide Next, Posts, Holding, IsRun, Inv, Trips, Empty;
    RunStep(trace, acts, k);
    InvShape(trace[k]);
    EmptyNext(trace[k], acts[k], trace[k + 1], dst, src);
    PostsMeans(trace[k], acts[k], dst, src, acts[k].len);
  }

  lemma OriginNext(trace: seq<State>, acts: seq<Action>, dst: nat, src: nat, j: nat, k: nat)
    requires IsRun(trace, acts) && Steady(trace[0]) && k < |acts| && !trace[k + 1].panicked
    requires dst < trace[k].N() && src < trace[k].N()
    requires Origin(trace, acts, dst, src, j, k) && !Empty(trace[k + 1], dst, src)
    ensures Origin(trace, acts, dst, src, j, k + 1)
  {
    hide Next, Posts, Holding, Inv, IsRun, Trips, Delivers, Empty;
    RunStep(trace, acts, k);
    InvShape(trace[k]);
    var len, text := acts[j].len, trace[j].exch[src][..acts[j].len];
    if Delivers(trace[k], acts[k], dst, src) {
      DeliverNext(trace[k], acts[k], trace[k + 1], dst, src, len, text);
    } else {
      HoldNext(trace[k], acts[k], trace[k + 1], dst, src, len, text);
    }
  }

  /** Every pending message was posted by its sender earlier in the run. */
  lemma {:induction false} SlotOrigin(trace: seq<State>, acts: seq<Action>, dst: nat, src: nat, k: nat) returns (j: nat)
    requires IsRun(trace, acts) && Steady(trace[0]) && k <= |acts| && !trace[k].panicked
    requires dst < trace[0].N() && src < trace[0].N()
    requires Empty(trace[0], dst, src) && !Empty(trace[k], dst, src)
    ensures |trace| == |acts| + 1 && Origin(trace, acts, dst, src, j, k)
  {
    hide Next, IsRun, Inv, Trips, Empty, Origin;
    RunShape(trace, acts);
    if k == 0 {
      assert false;
    } else {
      RunStep(trace, acts, k - 1);
      RunMeta(trace, acts, k - 1);
      if Empty(trace[k - 1], dst, src) {
        OriginStart(trace, acts, dst, src, k - 1);
        j := k - 1;
      } else {
        j := SlotOrigin(trace, acts, dst, src, k - 1);
        OriginNext(trace, acts, dst, src, j, k - 1);
      }
    }
  }

  /** Integrity end to end: whatever is delivered at step `k` was posted at some step `j` by the
      task named as its source, was not delivered in between, and is decoded by the receiver as
      exactly the bytes the sender had stored when it posted it; the sender is then released
      with OK. */
  lemma IpcIntegrity(trace: seq<State>, acts: seq<Action>, dst: nat, src: nat, k: nat) returns (j: nat)
    requires IsRun(trace, acts) && Steady(trace[0]) && k < |acts| && !trace[k].panicked
    requires dst < trace[0].N() && src < trace[0].N()
    requires Empty(trace[0], dst, src) && WF(trace[k]) && Delivers(trace[k], acts[k], dst, src)
    ensures |trace| == |acts| + 1 && Origin(trace, acts, dst, src, j, k)
    ensures Arrived(trace[k + 1], dst, src, trace[j].exch[src][..acts[j].len])
    ensures Empty(trace[k + 1], dst, src) && src < |trace[k + 1].st| && trace[k + 1].st[src] == Ready
    ensures src < |trace[k + 1].ret| && trace[k + 1].ret[src] == Some(Ok)
  {
    hide Next, IsRun, Inv, Trips, Arrived;
    RunShape(trace, acts);
    RunKeeps(trace, acts, k);
    RunMeta(trace, acts, k);
    RunNext(trace, acts, k);
    j := SlotOrigin(trace, acts, dst, src, k);
    DeliverNext(trace[k], acts[k], trace[k + 1], dst, src, acts[j].len, trace[j].exch[src][..acts[j].len]);
  }

  // ---- What the sender wrote -----------------------------------------------------------------------------------

  /** The step writes into the area of task `t`: `t` fills it, or is given an event. */
  ghost predicate Touches(s: State, a: Action, t: nat)
    requires WF(s)
  {
    Current(s) == t && (a.DoWrite? || (a.DoWaitEvent? && !NothingPending(s, t, a.mask)))
  }

  /** No other step changes the area of task `t`. */
  lemma AreaKept(s: State, a: Action, t: nat)
    requires Steady(s) && EnvOk(s, a) && Legal(s, a) && !Trips(s, a) && t < s.N() && !Touches(s, a, t)
    ensures Step(s, a).exch[t] == s.exch[t]
  {
    hide Inv, Legal, EnvOk, Step, Trips, NothingPending, NothingToTake, DelaysCarried, AlarmsCarried, SlotsAfter;
    hide Misfired, DueTo, AgedTo, Rouses;
    InvShape(s);
    if a.DoTick? {
      TickStepCarries(s);
    } else {
      CarriedStep(s, a);
      if a.DoWaitEvent? {
        NothingFound(s, a.mask);
      }
    }
  }

  /** A write puts its bytes at the start of the writer's area. */
  lemma AreaWritten(s: State, data: seq<byte>)
    requires Steady(s) && |data| <= AREA_LEN
    ensures Step(s, DoWrite(data)).exch[Current(s)][..|data|] == data
  {
  }

  ghost predicate Untouched(trace: seq<State>, acts: seq<Action>, t: nat, i: nat, j: nat)
    requires j <= |acts| < |trace|
  {
    forall n :: i <= n < j ==> WF(trace[n]) && !Touches(trace[n], acts[n], t)
  }

  /** What a task wrote stays in its area until it writes again or is given an event. */
  lemma {:induction false} AreaHolds(trace: seq<State>, acts: seq<Action>, t: nat, data: seq<byte>, i: nat, j: nat)
    requires IsRun(trace, acts) && Steady(trace[0]) && i < j <= |acts| < |trace| && !trace[j].panicked
    requires acts[i] == DoWrite(data) && |data| <= AREA_LEN && WF(trace[i]) && Current(trace[i]) == t
    requires Untouched(trace, acts, t, i + 1, j)
    ensures t < |trace[j].exch| && |trace[j].exch[t]| == AREA_LEN && trace[j].exch[t][..|data|] == data
    decreases j
  {
    hide IsRun, Inv, Clear, Trips, Step, Legal, EnvOk, Touches;
    RunStep(trace, acts, j - 1);
    InvShape(trace[j - 1]);
    InvShape(trace[j]);
    if j == i + 1 {
      AreaWritten(trace[i], data);
    } else {
      AreaHolds(trace, acts, t, data, i, j - 1);
      RunMeta(trace, acts, i);
      RunMeta(trace, acts, j - 1);
      AreaKept(trace[j - 1], acts[j - 1], t);
    }
  }

  /** From the sender's write to the receiver's decoder: when the sender wrote `data` at step `i` and
      its area was not touched until it posted the message, the receiver decodes that many bytes of
      `data`. */
  lemma MessageAsWritten(trace: seq<State>, acts: seq<Action>, dst: nat, src: nat, k: nat, i: nat, data: seq<byte>)
    returns (j: nat)
    requires IsRun(trace, acts) && Steady(trace[0]) && k < |acts| < |trace| && !trace[k].panicked
    requires dst < trace[0].N() && src < trace[0].N() && i < |acts|
    requires Empty(trace[0], dst, src) && WF(trace[k]) && Delivers(trace[k], acts[k], dst, src)
    requires acts[i] == DoWrite(data) && |data| <= AREA_LEN && WF(trace[i]) && Current(trace[i]) == src
    ensures Origin(trace, acts, dst, src, j, k)
    ensures i < j && acts[j].len <= |data| && Untouched(trace, acts, src, i + 1, j) ==>
              Arrived(trace[k + 1], dst, src, data[..acts[j].len])
  {
    hide IsRun, Inv, Clear, Delivers, Empty, Arrived, Untouched;
    j := IpcIntegrity(trace, acts, dst, src, k);
    if i < j && acts[j].len <= |data| && Untouched(trace, acts, src, i + 1, j) {
      EarlierCalm(trace, acts, j, k);
      AreaHolds(trace, acts, src, data, i, j);
      var area, len := trace[j].exch[src], acts[j].len;
      assert area[..len] == area[..|data|][..len];
    }
  }

  // ---- Terminal states ------------------------------------------------------------------------------------------

  predicate Terminal(j: JobState) {
    j == Fault || j == Security || j == Aborting || j == Finished
  }

  lemma TerminalMove(s: State, a: Action, t: nat)
    requires Steady(s) && EnvOk(s, a) && Legal(s, a) && !Trips(s, a) && !a.DoTick? && t < s.N() && Terminal(s.st[t])
    ensures Step(s, a).st[t] == s.st[t]
  {
    hide Step, Inv, EnvOk, Elects, Enqueue;
    InvShape(s);
    RunnerReady(s);
    MovedStep(s, a);
    if Rouses(s, a) == Some(t) {
      RousesTerminal(s, a, t);
    }
  }

  lemma RousesTerminal(s: State, a: Action, t: nat)
    requires Inv(s) && Legal(s, a) && !a.DoTick? && t < s.N() && Terminal(s.st[t])
    ensures Rouses(s, a) != Some(t)
  {
    if Rouses(s, a) == Some(t) {
      RousesBlocked(s, a);
      if a.DoWaitEvent? {
        SenderBlocked(s, t);
      }
    }
  }

  lemma TerminalNext(s: State, a: Action, q: State, t: nat)
    requires Steady(s) && Next(s, a, q) && !Trips(s, a) && t < s.N() && Terminal(s.st[t])
    ensures t < |q.st| && q.st[t] == s.st[t]
  {
    hide Step, Misfired, Trips, Inv, DueTo;
    InvShape(s);
    if a.DoTick? {
      TickSkips(s, t);
      TickStepCarries(s);
    } else {
      TerminalMove(s, a, t);
    }
  }

  /** A task that has finished, aborted or faulted never does anything else. */
  lemma {:induction false} TerminalForever(trace: seq<State>, acts: seq<Action>, t: nat, from: nat, k: nat)
    requires IsRun(trace, acts) && Steady(trace[0]) && from <= k <= |acts| && !trace[k].panicked
    requires t < |trace[from].st| && Terminal(trace[from].st[t])
    ensures t < |trace[k].st| && trace[k].st[t] == trace[from].st[t]
    decreases k
  {
    hide Next, IsRun, Inv, Trips;
    RunShape(trace, acts);
    if k > from {
      RunStep(trace, acts, k - 1);
      TerminalForever(trace, acts, t, from, k - 1);
      InvShape(trace[k - 1]);
      TerminalNext(trace[k - 1], acts[k - 1], trace[k], t);
    }
  }
}
