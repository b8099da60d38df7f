/** Runs from boot that reach the situations the theorems set apart: the requests that are not
    legal, an alarm that hits a waiting task, and idle that never yields. Each run exists on every
    board with a task that starts automatically. */
module Witnesses {
  import opened Slots
  import opened Exchange
  import opened IpcGraph
  import opened Rrmq
  import opened KernelSpec
  import opened Invariants
  import opened GateProofs
  import opened EventProofs
  import opened TickProofs
  import opened Protocol
  import opened Carriage
  import opened BoundedWaiting

  // ---- The state after boot ------------------------------------------------------------------------------

  /** A board whose task `t`, not idle, starts automatically. */
  ghost predicate Starts(size: nat, meta: seq<Meta>, auto: seq<bool>, t: nat) {
    |meta| <= size && MetaOk(meta) && |auto| == |meta| && t < |meta| - 1 && auto[t]
  }

  /** Nothing is pending, nobody waits, no timer runs. */
  ghost predicate Fresh(s: State) {
    && (forall t :: 0 <= t < |s.st| ==> s.st[t] == Ready)
    && (forall d, x :: 0 <= d < |s.ipcs| && 0 <= x < |s.ipcs[d]| ==> s.ipcs[d][x] == 0)
    && (forall d, x :: 0 <= d < |s.sigs| && 0 <= x < |s.sigs[d]| ==> s.sigs[d][x] == 0)
    && (forall i :: 0 <= i < |s.delays| ==> !s.delays[i].active)
    && (forall i :: 0 <= i < |s.alarms| ==> !s.alarms[i].active)
  }

  lemma {:induction false} BootFresh(size: nat, meta: seq<Meta>, auto: seq<bool>, k: nat)
    requires 1 <= |meta| <= size && |auto| == |meta| && k < |meta|
    ensures Fresh(Boot(size, meta, auto, k)) && Boot(size, meta, auto, k).sched.current == None
  {
    hide BootTask, Zeroed, Fresh;
    if k == 0 {
      ZeroedFresh(size, meta);
    } else {
      BootFresh(size, meta, auto, k - 1);
      BootTaskFresh(Boot(size, meta, auto, k - 1), k - 1, auto[k - 1]);
    }
  }

  lemma ZeroedFresh(size: nat, meta: seq<Meta>)
    requires 1 <= |meta| <= size
    ensures Fresh(Zeroed(size, meta)) && Zeroed(size, meta).sched.current == None
  {
  }

  lemma BootTaskFresh(p: State, t: nat, auto: bool)
    requires WF(p) && t < p.N() && Fresh(p) && p.sched.current == None
    ensures Fresh(BootTask(p, t, auto)) && BootTask(p, t, auto).sched.current == None
  {
    hide Insert, CanSchedule;
  }

  /** The boot state is calm and fresh, idle runs, and task `t` is ready. */
  lemma Booted(size: nat, meta: seq<Meta>, auto: seq<bool>, t: nat) returns (s: State)
    requires Starts(size, meta, auto, t)
    ensures s == Boot(size, meta, auto, |meta| - 1) && Calm(s) && Fresh(s)
    ensures s.sched.current == None && t in ReadySet(s.st, s.started)
  {
    hide Boot, Calm;
    s := Boot(size, meta, auto, |meta| - 1);
    BootInv(size, meta, auto, |meta| - 1);
    BootFresh(size, meta, auto, |meta| - 1);
  }

  lemma YieldFresh(s: State)
    requires WF(s) && !s.panicked && Fresh(s)
    ensures Fresh(Step(s, DoYield))
  {
    hide ElectSched;
  }

  /** Idle's first yield gives a task the core. */
  lemma FirstYield(size: nat, meta: seq<Meta>, auto: seq<bool>, t: nat) returns (b: State, s: State)
    requires Starts(size, meta, auto, t)
    ensures b == Boot(size, meta, auto, |meta| - 1) && Next(b, DoYield, s)
    ensures Calm(s) && Fresh(s) && s.sched.current.Some? && s.meta == meta
  {
    hide Boot, Starts, Inv, Clear, NoneHeld, Fresh, Step, ReadySet, Trips;
    b := Booted(size, meta, auto, t);
    s := Step(b, DoYield);
    InvCalm(b);
    CalmStep(b, DoYield);
    CalmExact(b, DoYield);
    IdleEnds(b, DoYield, t);
    YieldFresh(b);
  }

  // ---- Requests that are not legal -----------------------------------------------------------------------

  lemma NoChain(s: State, a: nat, b: nat)
    requires WF(s) && Fresh(s)
    ensures !Reaches(s.ipcs, a, b)
  {
  }

  /** One step after boot the running task can send itself a message, send an empty one to idle,
      or start itself again. None of these is refused, none is legal, and none keeps the invariant. */
  lemma IllegalReached(size: nat, meta: seq<Meta>, auto: seq<bool>, t: nat, a: Action)
    returns (trace: seq<State>, c: nat)
    requires Starts(size, meta, auto, t)
    ensures IsRun(trace, [DoYield]) && trace[0] == Boot(size, meta, auto, |meta| - 1) && WF(trace[1])
    ensures c == Current(trace[1]) && trace[1].sched.current.Some?
    ensures a == DoSendIpc(c, 1) || a == DoSendIpc(|meta| - 1, 0) || a == DoStart(c, true) ==>
              EnvOk(trace[1], a) && !Legal(trace[1], a) && !Inv(Step(trace[1], a))
  {
    hide Boot, Starts, Inv, Step;
    var b, s := FirstYield(size, meta, auto, t);
    trace := [b, s];
    InvShape(s);
    c := Current(s);
    RunnerReady(s);
    NoChain(s, c, c);
    NoChain(s, |meta| - 1, c);
    if a == DoSendIpc(c, 1) || a == DoSendIpc(|meta| - 1, 0) || a == DoStart(c, true) {
      GateStepBreaks(s, a);
    }
  }

  /** What the self-send leaves behind: a message in the slot of a sender that is not blocked. */
  lemma SelfSendLeaves(s: State)
    requires Inv(s) && Fresh(s) && s.sched.current.Some?
    ensures var c, q := Current(s), Gate(s, DoSendIpc(Current(s), 1));
            q.ipcs[c][c] == 1 && q.st[c] == Ready
  {
    NoChain(s, Current(s), Current(s));
    SendAccepted(s, Current(s), 1);
    RunnerReady(s);
  }

  /** What the empty send leaves behind: a sender that is blocked while no slot holds a message of
      it, so that no delivery will ever release it. */
  lemma EmptySendLeaves(s: State)
    requires Inv(s) && Fresh(s) && s.sched.current.Some?
    ensures var c, q := Current(s), Gate(s, DoSendIpc(s.Idle(), 0));
            q.st[c] == IpcSendBlocked && forall d :: 0 <= d < s.N() ==> q.ipcs[d][c] == 0
  {
    var c, idle := Current(s), s.Idle();
    InvShape(s);
    RunnerReady(s);
    NoChain(s, idle, c);
    SendAccepted(s, idle, 0);
    WakeFrame(SentState(s, idle, 0), idle);
    hide Inv, WakeIfWaiting, Elect;
    assert forall d :: 0 <= d < s.N() ==> SentState(s, idle, 0).ipcs[d][c] == 0;
  }

  // ---- An alarm that hits a waiting task -----------------------------------------------------------------

  lemma AlarmArmed(s: State)
    requires Calm(s) && Fresh(s) && s.sched.current.Some?
    ensures var q := Step(s, DoSetAlarm(1, false));
            && q.sched == s.sched && q.st == s.st && q.sigs == s.sigs && q.delays == s.delays
            && q.alarms == s.alarms[0 := Slot(true, Current(s), AlarmData(SIGNAL_ALARM, 1, 1, false))]
  {
    hide Inv, NoneHeld, HandOff, Step;
    InvCalm(s);
    assert FirstFree(s.alarms) == 0;
    CalmTrips(s, DoSetAlarm(1, false));
    StepKeeps(s, DoSetAlarm(1, false));
    HandOffFrame(SetAlarm(s, 1, false));
  }

  lemma WaitBegun(s: State)
    requires Calm(s) && s.sched.current.Some?
    ensures var q := Step(s, DoWaitEvent(0, 0, 0));
            q.st == s.st[Current(s) := WaitForEvent] && q.sigs == s.sigs && q.delays == s.delays && q.alarms == s.alarms
  {
    hide ElectSched, Inv, NoneHeld;
    InvCalm(s);
    StepKeeps(s, DoWaitEvent(0, 0, 0));
    CalmTrips(s, DoWaitEvent(0, 0, 0));
  }

  lemma AlarmStrikes(s: State, c: nat)
    requires WF(s) && c < s.N() && s.st[c] == WaitForEvent && s.sigs[c][c] == 0
    requires s.alarms[0] == Slot(true, c, AlarmData(SIGNAL_ALARM, 1, 1, false))
    requires forall i :: 0 <= i < |s.delays| ==> !s.delays[i].active
    ensures Misfired(s, c)
  {
    assert Hits(s, 0);
  }

  lemma AlwaysLegal(s: State, a: Action)
    requires WF(s) && (a.DoSetAlarm? || a.DoWaitEvent?)
    ensures Legal(s, a)
  {
  }

  /** The running task arms an alarm and then waits for no event at all. */
  lemma ArmThenWait(s: State) returns (p: State, q: State)
    requires Calm(s) && Fresh(s) && s.sched.current.Some?
    ensures Next(s, DoSetAlarm(1, false), p) && Next(p, DoWaitEvent(0, 0, 0), q) && Calm(q)
    ensures q.meta == s.meta && q.st[Current(s)] == WaitForEvent && Misfired(q, Current(s))
  {
    hide Inv, Clear, NoneHeld, Step, Misfired, Misfires, Legal, WF;
    InvCalm(s);
    ZeroSignal(s);
    AlarmArmed(s);
    AlwaysLegal(s, DoSetAlarm(1, false));
    p := Step(s, DoSetAlarm(1, false));
    CalmExact(s, DoSetAlarm(1, false));
    InvCalm(p);
    AlwaysLegal(p, DoWaitEvent(0, 0, 0));
    q := Step(p, DoWaitEvent(0, 0, 0));
    WaitBegun(p);
    CalmExact(p, DoWaitEvent(0, 0, 0));
    InvCalm(q);
    AlarmStrikes(q, Current(s));
  }

  lemma ZeroSignal(s: State)
    requires WF(s) && Fresh(s)
    ensures s.sigs[Current(s)][Current(s)] == 0 && |s.st| == s.N() && |s.alarms| >= 1
  {
  }

  lemma TickCellStarted(s: State, i: nat)
    requires WF(s) && i < s.size
    ensures TickJob(s, i).started == s.started && TickAlarm(s, i).started == s.started
  {
  }

  lemma {:induction false} TickLoopsStarted(s: State, k: nat)
    requires WF(s) && k <= s.size
    ensures TickJobs(s, k).started == s.started && TickAlarms(s, k).started == s.started
  {
    hide TickJob, TickAlarm, WF;
    if k > 0 {
      TickLoopsStarted(s, k - 1);
      TickCellStarted(TickJobs(s, k - 1), k - 1);
      TickCellStarted(TickAlarms(s, k - 1), k - 1);
    }
  }

  lemma RefreshStarted(s: State)
    requires WF(s)
    ensures Refresh(s).started == s.started
  {
    hide WF, ElectSched;
  }

  lemma TickStarted(s: State)
    requires WF(s)
    ensures Step(s, DoTick).started == s.started
  {
    hide TickJobs, TickAlarms, WF, Refresh, HandOff;
    var r := Refresh(Clock(s));
    RefreshStarted(Clock(s));
    TickLoopsStarted(r, s.size);
    TickLoopsStarted(TickJobs(r, s.size), s.size);
    HandOffFrame(Tick(s));
  }

  /** The tick of the alarm holds the task: it is ready and its return value is still NON_SENSE. */
  lemma TickHolds(q: State, c: nat) returns (r: State)
    requires Calm(q) && c < q.N() && q.st[c] == WaitForEvent && Misfired(q, c)
    ensures Next(q, DoTick, r) && Steady(r) && Held(r, c) && c in ReadySet(r.st, r.started)
  {
    hide Inv, Clear, NoneHeld, Step, Trips, Misfired, WF;
    InvShape(q);
    WaiterStarted(q, c);
    r := Step(q, DoTick);
    CalmTrips(q, DoTick);
    StepKeeps(q, DoTick);
    InvShape(r);
    StepHeld(q, DoTick, c);
    TickStarted(q);
    HeldReady(r, c);
  }

  lemma WaiterStarted(s: State, c: nat)
    requires Inv(s) && c < s.N() && s.st[c] == WaitForEvent
    ensures s.started[c] && c < s.Users()
  {
    hide SchedInv;
    InvSched(s);
  }

  lemma HeldReady(s: State, c: nat)
    requires Inv(s) && Held(s, c) && c < |s.started| && s.started[c]
    ensures c in ReadySet(s.st, s.started)
  {
  }

  /** On every board a task that arms an alarm and then waits is held four steps after boot. */
  lemma HeldReached(size: nat, meta: seq<Meta>, auto: seq<bool>, t: nat) returns (trace: seq<State>, c: nat)
    requires Starts(size, meta, auto, t)
    ensures IsRun(trace, [DoYield, DoSetAlarm(1, false), DoWaitEvent(0, 0, 0), DoTick])
    ensures trace[0] == Boot(size, meta, auto, |meta| - 1) && Calm(trace[3]) && trace[3].meta == meta
    ensures Steady(trace[4]) && Held(trace[4], c) && c in ReadySet(trace[4].st, trace[4].started)
    ensures c < |meta| - 1 && trace[3].st[c] == WaitForEvent
  {
    hide Boot, Starts, Inv, Clear, NoneHeld, Next, Misfired, Held, Fresh;
    var b, s := FirstYield(size, meta, auto, t);
    InvShape(s);
    RunnerReady(s);
    c := Current(s);
    var p, q := ArmThenWait(s);
    InvShape(q);
    var r := TickHolds(q, c);
    trace := [b, s, p, q, r];
  }

  lemma OnlyTask(s: State)
    requires Inv(s) && s.N() == 2 && 0 in ReadySet(s.st, s.started)
    ensures Current(Gate(s, DoYield)) == 0
  {
    hide Elect;
    ElectCore(s);
    assert forall t :: t in ReadySet(s.st, s.started) ==> t == 0;
    hide Core, Settled, IsBest, ReadySet, WF;
  }

  /** With a single task besides idle, idle's next yield resumes the held task and panics. */
  lemma PanicReached(size: nat, meta: seq<Meta>, auto: seq<bool>) returns (trace: seq<State>)
    requires Starts(size, meta, auto, 0) && |meta| == 2
    ensures IsRun(trace, [DoYield, DoSetAlarm(1, false), DoWaitEvent(0, 0, 0), DoTick, DoYield])
    ensures trace[0] == Boot(size, meta, auto, 1) && trace[5].panicked
  {
    hide Boot, Starts, Inv, Clear, NoneHeld, Step, Held, WF;
    var before, c := HeldReached(size, meta, auto, 0);
    var s := before[4];
    InvShape(s);
    assert Next(before[3], DoTick, before[4]);
    OnlyTask(s);
    StepKeeps(s, DoYield);
    trace := before + [Step(s, DoYield)];
  }

  // ---- Idle that never yields ----------------------------------------------------------------------------

  lemma NoAlarmNoHit(s: State)
    requires WF(s) && forall i :: 0 <= i < |s.alarms| ==> !s.alarms[i].active
    ensures !Misfires(s)
  {
  }

  lemma TickFresh(s: State)
    requires Calm(s) && WF(s) && forall i :: 0 <= i < |s.alarms| ==> !s.alarms[i].active
    ensures Next(s, DoTick, Step(s, DoTick)) && Calm(Step(s, DoTick))
    ensures forall i :: 0 <= i < |Step(s, DoTick).alarms| ==> !Step(s, DoTick).alarms[i].active
  {
    hide Inv, Clear, NoneHeld, Step, Misfires, Trips, Misfired, DueTo, AgedTo, WF;
    NoAlarmNoHit(s);
    CalmExact(s, DoTick);
    CalmTrips(s, DoTick);
    TickStepCarries(s);
    TickedAlarms(s, Step(s, DoTick));
  }

  lemma TickedAlarms(s: State, q: State)
    requires WF(s) && TickCarried(s, q) && forall i :: 0 <= i < |s.alarms| ==> !s.alarms[i].active
    ensures forall i :: 0 <= i < |q.alarms| ==> !q.alarms[i].active
  {
    hide AgedTo, Misfired, DueTo;
    forall i | 0 <= i < |q.alarms| ensures !q.alarms[i].active {
      assert q.alarms[i] == AgedAlarm(s.alarms[i]);
    }
  }

  /** However many ticks follow boot, if idle does not yield no task gets the core, although one is
      ready all the time. */
  lemma {:induction false} IdleStarves(size: nat, meta: seq<Meta>, auto: seq<bool>, t: nat, n: nat)
    returns (trace: seq<State>, acts: seq<Action>)
    requires Starts(size, meta, auto, t)
    ensures IsRun(trace, acts) && trace[0] == Boot(size, meta, auto, |meta| - 1)
    ensures |acts| == n && (forall i :: 0 <= i < n ==> acts[i] == DoTick)
    ensures Calm(trace[n]) && trace[n].sched.current.None? && t in ReadySet(trace[n].st, trace[n].started)
    ensures WF(trace[n]) && Current(trace[n]) != t
    ensures forall i :: 0 <= i < |trace[n].alarms| ==> !trace[n].alarms[i].active
  {
    hide Boot, Starts, Inv, Clear, NoneHeld, Next, Step, ReadySet, Trips;
    if n == 0 {
      var b := Booted(size, meta, auto, t);
      InvShape(b);
      IdleRunner(b, t);
      trace, acts := [b], [];
    } else {
      trace, acts := IdleStarves(size, meta, auto, t, n - 1);
      var s := trace[n - 1];
      TickFresh(s);
      CalmTrips(s, DoTick);
      IdleEnds(s, DoTick, t);
      InvShape(Step(s, DoTick));
      IdleRunner(Step(s, DoTick), t);
      trace, acts := trace + [Step(s, DoTick)], acts + [DoTick];
    }
  }
}
