/** Whole steps and whole runs of the kernel. */
module Protocol {
  import opened Slots
  import opened Rings
  import opened Exchange
  import opened IpcGraph
  import opened Rrmq
  import opened KernelSpec
  import opened Invariants
  import opened GateProofs
  import opened EventProofs
  import opened HeldProofs
  import opened TickProofs

  /** Idle only yields and fills its own area; interrupts and ticks may come at any time. */
  predicate EnvOk(s: State, a: Action) {
    s.sched.current.Some? || a.DoYield? || a.DoIrq? || a.DoDma? || a.DoTick? || a.DoWrite?
  }

  /** The conditions on a step, readable before it. */
  ghost predicate Legal(s: State, a: Action)
    requires WF(s)
  {
    match a
    // an accepted message has at least one byte and another receiver
    case DoSendIpc(target, len) => SendRefused(s, target, len) || (target == Current(s) <==> len == 0)
    // only a task that was never started is started, and never idle
    case DoStart(target, allowed) => !allowed || target >= s.N() || (target < s.Users() && !s.started[target])
    // the event ring has room
    case DoIrq(owner, _) => owner < s.N() && !IsFull(s.ints[owner])
    case DoDma(owner, _) => owner < s.N() && !IsFull(s.dmas[owner])
    case _ => true
  }

  /** The task that has the core when the gate is done. */
  function Resumes(s: State, a: Action): nat
    requires WF(s)
  {
    Current(if a.DoTick? then Refresh(s) else Gate(s, a))
  }

  /** The step elects a held task, or a left-over timeout of a held task falls due in it. */
  predicate Trips(s: State, a: Action)
    requires WF(s)
  {
    Held(s, Resumes(s, a)) || (a.DoTick? && Jammed(s))
  }

  /** Gates and interrupts never panic on a legal request. */
  lemma GateKeeps(s: State, a: Action)
    requires Steady(s) && EnvOk(s, a) && Legal(s, a) && !a.DoTick?
    ensures Inv(Gate(s, a))
  {
    hide Inv, SendIpc, SendSignal, WaitEvent, Sleep, Exit, Yield, UserFault, Start, SetAlarm, StopAlarm, Irq, Dma;
    InvShape(s);
    match a
    case DoSendIpc(target, len) => SendIpcKeeps(s, target, len);
    case DoSendSignal(target, sig) => SendSignalKeeps(s, target, sig);
    case DoWaitEvent(mask, timeout, devh) => WaitEventKeeps(s, mask, timeout, devh);
    case DoSleep(ms, mode) => SleepKeeps(s, ms, mode);
    case DoExit(result) => ExitKeeps(s, result);
    case DoYield => YieldKeeps(s);
    case DoFault => FaultKeeps(s);
    case DoStart(target, allowed) => StartKeeps(s, target, allowed);
    case DoSetAlarm(ms, periodic) => SetAlarmKeeps(s, ms, periodic);
    case DoStopAlarm(ms) => StopAlarmKeeps(s, ms);
    case DoIrq(owner, irqn) => IrqKeeps(s, owner, irqn);
    case DoDma(owner, event) => DmaKeeps(s, owner, event);
    case DoWrite(data) => WriteKeeps(s, data);
  }

  lemma GateHeld(s: State, a: Action)
    requires Steady(s) && EnvOk(s, a) && !a.DoTick?
    ensures HeldSame(s, Gate(s, a))
  {
    hide Inv, HeldSame, SendIpc, SendSignal, WaitEvent, Sleep, Exit, Yield, UserFault, Start;
    hide SetAlarm, StopAlarm, Irq, Dma;
    InvShape(s);
    match a
    case DoSendIpc(target, len) => HeldSend(s, target, len);
    case DoSendSignal(target, sig) => HeldSignal(s, target, sig);
    case DoWaitEvent(mask, timeout, devh) => HeldWait(s, mask, timeout, devh);
    case DoSleep(ms, mode) => HeldSleep(s, ms, mode);
    case DoExit(result) => HeldExit(s, result);
    case DoYield => HeldYield(s);
    case DoFault => HeldFault(s);
    case DoStart(target, allowed) => HeldStart(s, target, allowed);
    case DoSetAlarm(ms, periodic) => HeldAlarm(s, ms, periodic);
    case DoStopAlarm(ms) => HeldAlarm(s, ms, false);
    case DoIrq(owner, irqn) => HeldEvent(s, owner, irqn, DmaEvent(0, 0));
    case DoDma(owner, event) => HeldEvent(s, owner, 0, event);
    case DoWrite(data) => HeldWrite(s, data);
  }

  lemma HeldWrite(s: State, data: seq<byte>)
    requires WF(s)
    ensures HeldSame(s, Gate(s, DoWrite(data)))
  {
  }

  /** The running task after a tick is not one that the tick itself made held. */
  lemma RefreshRunner(s: State)
    requires Inv(s)
    ensures s.st[Current(Refresh(s))] == Ready
  {
    hide Refresh;
    RefreshKeeps(s);
    RunnerReady(Refresh(s));
  }

  lemma TickClear(s: State)
    requires Inv(s) && !Jammed(s)
    ensures Inv(Tick(s)) && (Clear(Tick(s)) <==> !Held(s, Current(Refresh(s))))
  {
    hide Tick, Refresh, Jammed, Inv, Misfired;
    InvShape(s);
    TickKeeps(s);
    RefreshRunner(s);
    TickHeld(s, Current(Refresh(s)));
    MisfiredWaits(s, Current(Refresh(s)));
  }

  lemma MisfiredWaits(s: State, t: nat)
    requires WF(s) && t < s.N()
    ensures Misfired(s, t) ==> s.st[t] == WaitForEvent
  {
  }

  lemma GateClear(s: State, a: Action)
    requires Steady(s) && EnvOk(s, a) && Legal(s, a) && !(a.DoTick? && Jammed(s))
    ensures Inv(Gate(s, a)) && (Clear(Gate(s, a)) <==> !Held(s, Resumes(s, a)))
  {
    hide Inv, Gate, Legal, EnvOk, Jammed;
    InvShape(s);
    if a.DoTick? {
      TickGate(s, a);
      TickClear(s);
    } else {
      GateKeeps(s, a);
      GateHeld(s, a);
    }
  }

  lemma TickGate(s: State, a: Action)
    requires WF(s) && a.DoTick?
    ensures Gate(s, a) == Tick(s)
  {
  }

  /** Every legal step keeps the invariant, or panics; it panics exactly when it elects a held task
      or a left-over timeout of a held task falls due. */
  lemma StepKeeps(s: State, a: Action)
    requires Steady(s) && EnvOk(s, a) && Legal(s, a)
    ensures if Trips(s, a) then Step(s, a).panicked else Steady(Step(s, a))
    ensures !Trips(s, a) && !a.DoWrite? ==> Step(s, a) == HandOff(Gate(s, a)) && !Gate(s, a).panicked
    ensures a.DoWrite? ==> !Trips(s, a) && Step(s, a) == Gate(s, a)
    ensures !(a.DoTick? && Jammed(s)) ==> Inv(Gate(s, a))
  {
    InvCalm(s);
    if a.DoWrite? {
      WriteRunner(s, a);
    }
    hide Inv, Gate, HandOff, Legal, EnvOk, Jammed, Tick;
    if a.DoTick? && Jammed(s) {
      TickGate(s, a);
      TickKeeps(s);
    } else {
      GateClear(s, a);
      InvCalm(Gate(s, a));
      HandOffKeeps(Gate(s, a));
    }
  }

  lemma InvCalm(s: State)
    requires Inv(s)
    ensures WF(s) && !s.panicked
  {
  }

  lemma WriteRunner(s: State, a: Action)
    requires WF(s) && a.DoWrite?
    ensures Resumes(s, a) == Current(s)
  {
  }

  /** A step holds no task, except that a tick holds those its alarms hit; it releases none. */
  lemma StepHeld(s: State, a: Action, t: nat)
    requires Steady(s) && EnvOk(s, a) && Legal(s, a) && !Trips(s, a) && t < s.N()
    ensures Held(Step(s, a), t) <==> Held(s, t) || (a.DoTick? && Misfired(s, t))
  {
    hide Inv, Gate, Step, Legal, EnvOk, Jammed, Misfired, Tick;
    InvShape(s);
    StepKeeps(s, a);
    GateClear(s, a);
    if a.DoTick? {
      TickGate(s, a);
      TickHeld(s, t);
    } else {
      GateHeld(s, a);
    }
    if !a.DoWrite? {
      HandOffHeld(Gate(s, a), t);
    }
  }

  lemma HandOffHeld(g: State, t: nat)
    requires Inv(g) && Clear(g) && t < g.N()
    ensures Held(HandOff(g), t) <==> Held(g, t)
  {
  }

  /** Nothing is held as long as no alarm hits a waiting task, and then nothing panics. */
  lemma CalmStep(s: State, a: Action)
    requires Calm(s) && EnvOk(s, a) && Legal(s, a)
    ensures !Trips(s, a) && Steady(Step(s, a))
    ensures Calm(Step(s, a)) <==> !(a.DoTick? && Misfires(s))
  {
    CalmTrips(s, a);
    hide Inv, Clear, Step, Legal, EnvOk, Trips, NoneHeld, Misfires;
    InvShape(s);
    StepKeeps(s, a);
    CalmHeld(s, a);
  }

  lemma CalmHeld(s: State, a: Action)
    requires Calm(s) && EnvOk(s, a) && Legal(s, a) && !Trips(s, a)
    ensures NoneHeld(Step(s, a)) <==> !(a.DoTick? && Misfires(s))
  {
    hide Inv, Clear, Step, Legal, EnvOk, Trips, Misfired, Held;
    InvShape(s);
    forall t | 0 <= t < s.N() ensures Held(Step(s, a), t) <==> a.DoTick? && Misfired(s, t) {
      StepHeld(s, a, t);
    }
    assert |Step(s, a).st| == s.N();
  }

  lemma CalmTrips(s: State, a: Action)
    requires Calm(s)
    ensures !Trips(s, a)
  {
  }

  // ---- The condition is exact ----------------------------------------------------------------------------

  /** The hand-off changes return values and the panic flag only. */
  lemma HandOffFrame(s: State)
    requires WF(s)
    ensures HandOff(s) == s.(ret := HandOff(s).ret, panicked := HandOff(s).panicked)
    ensures HandOff(s).panicked || forall t :: 0 <= t < s.N() && t != Current(s) ==> HandOff(s).ret[t] == s.ret[t]
  {
  }

  /** A self-send of at least one byte leaves a message of a task that is not blocked. */
  lemma SelfSendBreaks(s: State, len: nat)
    requires Inv(s) && s.sched.current.Some? && !SendRefused(s, Current(s), len) && len >= 1
    ensures var q := SendIpc(s, Current(s), len); !SlotInv(q.ipcs, q.st, q.sentTo)
  {
    SendAccepted(s, Current(s), len);
    RunnerReady(s);
    var c, q := Current(s), SendIpc(s, Current(s), len);
    assert q.ipcs[c][c] != 0 && q.st[c] == Ready;
  }

  lemma WakeFrame(s: State, t: nat)
    requires WF(s) && t < s.N()
    ensures var q := WakeIfWaiting(s, t, s.st[t]);
            && q.ipcs == s.ipcs && q.sentTo == s.sentTo
            && forall u :: 0 <= u < s.N() && u != t ==> q.st[u] == s.st[u]
  {
  }

  /** A send of zero bytes blocks the sender without leaving a message. */
  lemma EmptySendBreaks(s: State, target: nat)
    requires Inv(s) && s.sched.current.Some? && !SendRefused(s, target, 0) && target != Current(s)
    ensures var q := SendIpc(s, target, 0); !SlotInv(q.ipcs, q.st, q.sentTo)
  {
    SendAccepted(s, target, 0);
    var c, b := Current(s), SentState(s, target, 0);
    WakeFrame(b, target);
    var q := SendIpc(s, target, 0);
    assert q.st[c] == IpcSendBlocked && q.sentTo[c] == target && q.ipcs[target][c] == 0;
  }

  lemma SendIpcBreaks(s: State, target: nat, len: nat)
    requires Inv(s) && s.sched.current.Some? && !Legal(s, DoSendIpc(target, len))
    ensures var q := SendIpc(s, target, len); !SlotInv(q.ipcs, q.st, q.sentTo)
  {
    if target == Current(s) {
      SelfSendBreaks(s, len);
    } else {
      EmptySendBreaks(s, target);
    }
  }

  lemma StartTwice(sc: Sched, size: nat, meta: seq<Meta>, st: seq<JobState>, started: seq<bool>, t: nat)
    requires SchedInv(sc, size, meta, st, started) && BlockedRunner(sc, st) == None && t < |st| && st[t] == Ready
    requires t == |st| - 1 || started[t]
    ensures !SchedInv(sc.WithActive(Insert(sc.Active(), t, meta[t])), size, meta, st, started[t := true])
  {
    var a, r := sc.Active(), sc.WithActive(Insert(sc.Active(), t, meta[t]));
    forall u ensures Count(a.cells, u) <= 1 {
      assert Copies(sc, u) <= 1;
    }
    InsertFinds(a.cells, meta, |meta| - 1);
    InsertCount(a, t, meta[t]);
    assert Copies(r, t) == Copies(sc, t) + 1;
    if t == |st| - 1 {
      assert t !in ReadySet(st, started[t := true]);
    } else {
      assert t in ReadySet(st, started);
    }
  }

  /** Starting a task that is already started, or idle, panics or queues a job twice. */
  lemma StartBreaks(s: State, target: nat)
    requires Inv(s) && target < s.N() && (target == s.Idle() || s.started[target])
    ensures var q := Start(s, target, true);
            q.panicked || !SchedInv(q.sched, q.size, q.meta, q.st, q.started)
  {
    hide Mail, WakeInv, DelayInv, RetInv;
    var a := s.sched.Active();
    if a.num <= s.size && CanSchedule(s, target) {
      StartTwice(s.sched, s.size, s.meta, s.st, s.started, target);
    }
  }

  lemma GateBreaks(s: State, a: Action)
    requires Inv(s) && EnvOk(s, a) && !Legal(s, a)
    ensures var q := Gate(s, a);
            q.panicked || !SlotInv(q.ipcs, q.st, q.sentTo) || !SchedInv(q.sched, q.size, q.meta, q.st, q.started)
  {
    match a
    case DoSendIpc(target, len) => SendIpcBreaks(s, target, len);
    case DoStart(target, _) => StartBreaks(s, target);
    case _ =>
  }

  lemma GateStepBreaks(s: State, a: Action)
    requires Inv(s) && EnvOk(s, a) && !Legal(s, a)
    ensures !Inv(Step(s, a))
  {
    hide Gate, SchedInv, SlotInv, WakeInv, DelayInv, Dormant, RetInv, Legal, EnvOk;
    GateBreaks(s, a);
    HandOffFrame(Gate(s, a));
  }

  /** The conditions are exact: a step keeps the invariant if and only if it is legal and neither
      elects a held task nor meets a left-over timeout of one. */
  lemma StepExact(s: State, a: Action)
    requires Steady(s) && EnvOk(s, a)
    ensures Steady(Step(s, a)) <==> Legal(s, a) && !Trips(s, a)
  {
    hide Inv, Legal, EnvOk, Step, Trips;
    InvShape(s);
    if Legal(s, a) {
      StepKeeps(s, a);
      PanicBreaks(Step(s, a));
    } else {
      GateStepBreaks(s, a);
    }
  }

  lemma PanicBreaks(s: State)
    ensures s.panicked ==> !Inv(s)
  {
  }

  /** The return-value protocol is kept, too, if and only if no alarm hits a waiting task. */
  lemma CalmExact(s: State, a: Action)
    requires Calm(s) && EnvOk(s, a)
    ensures Calm(Step(s, a)) <==> Legal(s, a) && !(a.DoTick? && Misfires(s))
  {
    hide Inv, Legal, EnvOk, Step, Misfires, NoneHeld;
    InvShape(s);
    if Legal(s, a) {
      CalmStep(s, a);
    } else {
      GateStepBreaks(s, a);
    }
  }

  // ---- Boot ------------------------------------------------------------------------------------------------

  /** All tasks READY, nothing scheduled, nothing pending. */
  function Zeroed(size: nat, meta: seq<Meta>): (q: State)
    requires 1 <= |meta| <= size
    ensures WF(q) && q.meta == meta && q.size == size
  {
    var n := |meta|;
    State(size, meta, seq(n, _ => Ready), seq(n, _ => None), seq(n, _ => 0),
          seq(n, _ => seq(size, _ => 0)), seq(n, _ => seq(size, _ => 0)),
          seq(n, _ => Ring(seq(DEPTH, _ => 0), 0, 0)), seq(n, _ => Ring(seq(DEPTH, _ => DmaEvent(0, 0)), 0, 0)),
          seq(n, _ => seq(AREA_LEN, _ => 0)), EmptySched(size),
          seq(size, _ => Slot(false, 0, DelayData(0, 0))), seq(size, _ => Slot(false, 0, AlarmData(0, 0, 0, false))),
          0, false, seq(n, _ => false), seq(n, _ => 0), seq(n, _ => 0))
  }

  /** Task `t` is scheduled when its metadata says that it starts automatically. */
  function BootTask(p: State, t: nat, auto: bool): (q: State)
    requires WF(p) && t < p.N()
    ensures WF(q) && q.meta == p.meta && q.size == p.size
  {
    if auto then Schedule(p, t).(started := p.started[t := true]) else p
  }

  /** Boot has looked at the first `k` tasks and scheduled those that start automatically. */
  function Boot(size: nat, meta: seq<Meta>, auto: seq<bool>, k: nat): (q: State)
    requires 1 <= |meta| <= size && |auto| == |meta| && k < |meta|
    ensures WF(q) && q.meta == meta && q.size == size
  {
    if k == 0 then Zeroed(size, meta) else BootTask(Boot(size, meta, auto, k - 1), k - 1, auto[k - 1])
  }

  lemma ZeroedSched(size: nat, meta: seq<Meta>)
    requires 1 <= |meta| <= size
    ensures var s := Zeroed(size, meta);
            SchedInv(s.sched, size, meta, s.st, s.started) && DelayInv(s.delays, s.st, s.ret)
  {
    var s := Zeroed(size, meta);
    SizeBounds(s.sched.primary.cells);
    forall t ensures Count(s.sched.primary.cells, t) == 0 && Count(s.delays, t) == 0 {
      CountHolds(s.sched.primary.cells, t);
      CountHolds(s.delays, t);
    }
  }

  lemma ZeroedInv(size: nat, meta: seq<Meta>)
    requires |meta| <= size && MetaOk(meta)
    ensures Inv(Zeroed(size, meta))
  {
    ZeroedSched(size, meta);
    var s := Zeroed(size, meta);
    forall t ensures !Reaches(s.ipcs, t, t) {
      if Reaches(s.ipcs, t, t) {
        var m := ReachesLast(s.ipcs, t, t);
      }
    }
  }

  ghost predicate StartedTo(s: State, auto: seq<bool>, k: nat) {
    |s.started| == |auto| && forall t :: 0 <= t < |auto| ==> (s.started[t] <==> t < k && auto[t])
  }

  /** No task has a return value to come. */
  ghost predicate NoReturns(s: State) {
    forall t :: 0 <= t < |s.ret| ==> s.ret[t] == None
  }

  lemma BootTaskReturns(p: State, t: nat, auto: bool)
    requires WF(p) && t < p.N() && NoReturns(p)
    ensures NoReturns(BootTask(p, t, auto))
  {
  }

  lemma NoReturnsCalm(s: State)
    requires WF(s) && NoReturns(s)
    ensures Clear(s) && NoneHeld(s)
  {
  }

  lemma ZeroedStarted(size: nat, meta: seq<Meta>, auto: seq<bool>)
    requires 1 <= |meta| <= size && |auto| == |meta|
    ensures StartedTo(Zeroed(size, meta), auto, 0) && NoReturns(Zeroed(size, meta))
  {
  }

  lemma BootTaskKeeps(p: State, auto: seq<bool>, t: nat)
    requires Inv(p) && t < p.Users() && |auto| == p.N() && StartedTo(p, auto, t)
    ensures Inv(BootTask(p, t, auto[t])) && StartedTo(BootTask(p, t, auto[t]), auto, t + 1)
  {
    if auto[t] {
      StartSched(p.sched, p.size, p.meta, p.st, p.started, t);
      StartedInv(p, t);
      assert BootTask(p, t, true) == StartedState(p, t);
    }
  }

  lemma {:induction false} BootInv(size: nat, meta: seq<Meta>, auto: seq<bool>, k: nat)
    requires |meta| <= size && MetaOk(meta) && |auto| == |meta| && k < |meta|
    ensures Calm(Boot(size, meta, auto, k)) && StartedTo(Boot(size, meta, auto, k), auto, k)
    ensures NoReturns(Boot(size, meta, auto, k))
  {
    hide Inv, WF, Clear, NoneHeld, NoReturns, Zeroed, BootTask, StartedTo, MetaOk;
    if k == 0 {
      ZeroedInv(size, meta);
      ZeroedStarted(size, meta, auto);
    } else {
      BootInv(size, meta, auto, k - 1);
      BootTaskKeeps(Boot(size, meta, auto, k - 1), auto, k - 1);
      BootTaskReturns(Boot(size, meta, auto, k - 1), k - 1, auto[k - 1]);
    }
    InvShape(Boot(size, meta, auto, k));
    NoReturnsCalm(Boot(size, meta, auto, k));
  }

  // ---- Runs ----------------------------------------------------------------------------------------------------

  ghost predicate Next(s: State, a: Action, q: State) {
    WF(s) && EnvOk(s, a) && Legal(s, a) && q == Step(s, a)
  }

  /** `trace` is a run of legal steps with labels `acts`. */
  ghost predicate IsRun(trace: seq<State>, acts: seq<Action>) {
    |trace| == |acts| + 1 && forall i :: 0 <= i < |acts| ==> Next(trace[i], acts[i], trace[i + 1])
  }

  /** How many of the first `k` steps are ticks. */
  function TicksIn(acts: seq<Action>, k: nat): nat
    requires k <= |acts|
  {
    if k == 0 then 0 else TicksIn(acts, k - 1) + if acts[k - 1].DoTick? then 1 else 0
  }

  lemma RunShape(trace: seq<State>, acts: seq<Action>)
    requires IsRun(trace, acts)
    ensures |trace| == |acts| + 1
  {
  }

  lemma RunNext(trace: seq<State>, acts: seq<Action>, i: nat)
    requires IsRun(trace, acts) && i < |acts|
    ensures |trace| == |acts| + 1 && Next(trace[i], acts[i], trace[i + 1])
  {
  }

  lemma {:induction false} RunMeta(trace: seq<State>, acts: seq<Action>, k: nat)
    requires IsRun(trace, acts) && k < |trace|
    ensures trace[k].meta == trace[0].meta
  {
    hide Step, Legal, EnvOk;
    if k > 0 {
      RunMeta(trace, acts, k - 1);
      assert Next(trace[k - 1], acts[k - 1], trace[k - 1 + 1]);
    }
  }

  lemma NextKeeps(s: State, a: Action, q: State)
    requires Next(s, a, q) && Steady(s)
    ensures if Trips(s, a) then q.panicked else Steady(q)
  {
    StepKeeps(s, a);
  }

  lemma NextPanicked(s: State, a: Action, q: State)
    requires Next(s, a, q) && s.panicked
    ensures q == s
  {
  }

  /** Nothing happens after a panic. */
  lemma {:induction false} PanicStays(trace: seq<State>, acts: seq<Action>, i: nat, k: nat)
    requires IsRun(trace, acts) && i <= k < |trace| && trace[i].panicked
    ensures trace[k] == trace[i]
  {
    hide Next;
    if i < k {
      PanicStays(trace, acts, i, k - 1);
      NextPanicked(trace[k - 1], acts[k - 1], trace[k - 1 + 1]);
    }
  }

  lemma EarlierCalm(trace: seq<State>, acts: seq<Action>, i: nat, k: nat)
    requires IsRun(trace, acts) && i <= k < |trace| && !trace[k].panicked
    ensures !trace[i].panicked
  {
    hide IsRun;
    if trace[i].panicked {
      PanicStays(trace, acts, i, k);
    }
  }

  /** The invariant holds in every state of every run that starts in it, until a panic. */
  lemma {:induction false} RunKeeps(trace: seq<State>, acts: seq<Action>, k: nat)
    requires IsRun(trace, acts) && Steady(trace[0]) && k < |trace|
    ensures trace[k].panicked || Steady(trace[k])
  {
    hide Next, Steady, Trips;
    if k > 0 {
      RunKeeps(trace, acts, k - 1);
      if trace[k - 1].panicked {
        NextPanicked(trace[k - 1], acts[k - 1], trace[k - 1 + 1]);
      } else {
        RunNext(trace, acts, k - 1);
        NextKeeps(trace[k - 1], acts[k - 1], trace[k]);
      }
    }
  }

  /** A step of a run that has not panicked, with what is known on both sides of it. */
  lemma RunStep(trace: seq<State>, acts: seq<Action>, k: nat)
    requires IsRun(trace, acts) && Steady(trace[0]) && k < |acts| && !trace[k + 1].panicked
    ensures |trace| == |acts| + 1 && Next(trace[k], acts[k], trace[k + 1]) && !trace[k].panicked
    ensures Steady(trace[k]) && Steady(trace[k + 1]) && !Trips(trace[k], acts[k])
  {
    hide Next, IsRun, Steady, Trips;
    RunNext(trace, acts, k);
    RunKeeps(trace, acts, k);
    if trace[k].panicked {
      NextPanicked(trace[k], acts[k], trace[k + 1]);
    }
    NextSteady(trace[k], acts[k], trace[k + 1]);
  }

  lemma NextSteady(s: State, a: Action, q: State)
    requires Next(s, a, q) && Steady(s) && !q.panicked
    ensures Steady(q) && !Trips(s, a)
  {
    hide Step, Legal, EnvOk, Trips, Steady;
    NextKeeps(s, a, q);
  }

  /** A run panics at exactly the first step that elects a held task or meets a left-over timeout
      of one. */
  lemma PanicExact(trace: seq<State>, acts: seq<Action>, k: nat)
    requires IsRun(trace, acts) && Steady(trace[0]) && k < |acts| && !trace[k].panicked
    ensures |trace| == |acts| + 1 && WF(trace[k]) && (trace[k + 1].panicked <==> Trips(trace[k], acts[k]))
  {
    hide Next, IsRun, Inv, Clear, Trips;
    RunNext(trace, acts, k);
    RunKeeps(trace, acts, k);
    InvShape(trace[k]);
    NextKeeps(trace[k], acts[k], trace[k + 1]);
    SteadyCalm(trace[k + 1]);
  }

  lemma SteadyCalm(s: State)
    ensures Inv(s) ==> !s.panicked
  {
  }

  /** Some tick of the first `k` steps hit task `t` while it waited. */
  ghost predicate HitBefore(trace: seq<State>, acts: seq<Action>, t: nat, k: nat)
    requires k <= |acts| <= |trace|
  {
    exists i :: 0 <= i < k && acts[i].DoTick? && WF(trace[i]) && Misfired(trace[i], t)
  }

  /** The tasks held are exactly those that an alarm has hit while they waited; once held, a task
      stays so until the panic. */
  lemma {:induction false} HeldSince(trace: seq<State>, acts: seq<Action>, t: nat, k: nat)
    requires IsRun(trace, acts) && Calm(trace[0]) && k <= |acts| && t < |trace[0].st| && !trace[k].panicked
    ensures |trace| == |acts| + 1 && |trace[k].st| == |trace[0].st|
    ensures Held(trace[k], t) <==> HitBefore(trace, acts, t, k)
  {
    hide Next, IsRun, Inv, Clear, Held, Misfired, Trips;
    RunShape(trace, acts);
    if k > 0 {
      RunStep(trace, acts, k - 1);
      HeldSince(trace, acts, t, k - 1);
      NextHeld(trace[k - 1], acts[k - 1], trace[k], t);
    }
  }

  lemma NextHeld(s: State, a: Action, q: State, t: nat)
    requires Steady(s) && Next(s, a, q) && !Trips(s, a) && t < |s.st|
    ensures |q.st| == |s.st| && WF(s) && (Held(q, t) <==> Held(s, t) || (a.DoTick? && Misfired(s, t)))
  {
    hide Step, Legal, EnvOk, Held, Misfired, Inv, Trips;
    InvShape(s);
    StepHeld(s, a, t);
  }

  /** No alarm of the first `k` steps hits a waiting task. */
  ghost predicate NoMisfire(trace: seq<State>, acts: seq<Action>, k: nat)
    requires k <= |acts| <= |trace|
  {
    forall i :: 0 <= i < k && acts[i].DoTick? && WF(trace[i]) ==> !Misfires(trace[i])
  }

  lemma NextCalm(s: State, a: Action, q: State)
    requires Calm(s) && Next(s, a, q) && !(a.DoTick? && Misfires(s))
    ensures Calm(q)
  {
    CalmStep(s, a);
  }

  /** As long as no alarm hits a waiting task, nothing is held and nothing panics. */
  lemma {:induction false} RunCalm(trace: seq<State>, acts: seq<Action>, k: nat)
    requires IsRun(trace, acts) && Calm(trace[0]) && k <= |acts| && NoMisfire(trace, acts, k)
    ensures Calm(trace[k])
  {
    hide Next, Inv, Clear, NoneHeld, Misfires;
    if k > 0 {
      RunCalm(trace, acts, k - 1);
      InvShape(trace[k - 1]);
      RunNext(trace, acts, k - 1);
      NextCalm(trace[k - 1], acts[k - 1], trace[k]);
    }
  }

  /** Every state reached from boot satisfies the invariant, or the run has panicked. */
  lemma BootRunKeeps(size: nat, meta: seq<Meta>, auto: seq<bool>, trace: seq<State>, acts: seq<Action>, k: nat)
    requires |meta| <= size && MetaOk(meta) && |auto| == |meta|
    requires IsRun(trace, acts) && trace[0] == Boot(size, meta, auto, |meta| - 1) && k < |trace|
    ensures Calm(trace[0]) && (trace[k].panicked || Steady(trace[k]))
  {
    hide Boot, StartedTo, IsRun;
    BootInv(size, meta, auto, |meta| - 1);
    RunKeeps(trace, acts, k);
  }
}
