/** A job that gets the core keeps it for exactly its quantum. */
module Quantum {
  import opened Slots
  import opened Rrmq
  import opened KernelSpec
  import opened Invariants
  import opened GateProofs
  import opened EventProofs
  import opened TickProofs
  import opened Protocol
  import opened Moves
  import opened BoundedWaiting

  // ---- Budgets of the queued jobs ------------------------------------------------------------------------

  ghost predicate FullBut(cells: seq<Cell>, meta: seq<Meta>, skip: Option<nat>) {
    forall i :: 0 <= i < |cells| && cells[i].active && skip != Some(i) ==>
      cells[i].handler < |meta| && cells[i].data.quantum == meta[cells[i].handler].quantum
  }

  /** Every queued job other than the running one has its whole quantum left. */
  ghost predicate Budgeted(sc: Sched, meta: seq<Meta>) {
    FullBut(sc.Active().cells, meta, sc.current) && FullBut(sc.Backed().cells, meta, None)
  }

  /** The running job has its whole quantum left, too. */
  ghost predicate FreshRunner(sc: Sched, meta: seq<Meta>) {
    sc.current.Some? && sc.current.value < |sc.Active().cells| ==>
      sc.Running(0) < |meta| && RunnerQuantum(sc) == meta[sc.Running(0)].quantum
  }

  /** A wake-up leaves the running job and every budget alone. */
  ghost predicate Fed(sc: Sched, r: Sched, meta: seq<Meta>) {
    && r.current == sc.current && |r.Active().cells| == |sc.Active().cells| && r.Backed() == sc.Backed()
    && (sc.current.Some? && sc.current.value < |sc.Active().cells| ==>
          r.Active().cells[sc.current.value] == sc.Active().cells[sc.current.value])
    && (Budgeted(sc, meta) ==> Budgeted(r, meta))
  }

  lemma InsertFed(sc: Sched, size: nat, meta: seq<Meta>, st: seq<JobState>, started: seq<bool>, t: nat)
    requires SchedTables(sc, size, meta, st, started) && t < |meta|
    ensures Fed(sc, sc.WithActive(Insert(sc.Active(), t, meta[t])), meta)
  {
    ActiveRoom(sc, size, meta, st, started);
    hide FirstFree;
  }

  lemma EnqueueFed(sc: Sched, size: nat, meta: seq<Meta>, st: seq<JobState>, started: seq<bool>, t: Option<nat>)
    requires SchedTables(sc, size, meta, st, started) && (t.Some? ==> t.value < |meta|)
    ensures Fed(sc, Enqueue(sc, meta, t), meta)
  {
    hide Insert;
    if t.Some? {
      InsertFed(sc, size, meta, st, started, t.value);
    }
  }

  /** After an election every job, the chosen one included, has its whole quantum left. */
  lemma ElectBudgets(sc: Sched, size: nat, meta: seq<Meta>, stillReady: bool)
    requires sc.Shaped(size) && Budgeted(sc, meta) && (sc.current.Some? ==> sc.Running(0) < |meta|)
    ensures var r := ElectSched(sc, meta, stillReady); Budgeted(r, meta) && FreshRunner(r, meta)
  {
    var p := if sc.current.None? then sc else Retire(sc, meta, stillReady);
    assert FullBut(p.Active().cells, meta, None) && FullBut(p.Backed().cells, meta, None) by {
      if sc.current.Some? {
        RetireBudgets(sc, size, meta, stillReady);
      }
    }
    hide Retire;
    ChooseBudgets(p, meta);
  }

  lemma RetireBudgets(sc: Sched, size: nat, meta: seq<Meta>, stillReady: bool)
    requires sc.Shaped(size) && Budgeted(sc, meta) && sc.current.Some? && sc.Running(0) < |meta|
    ensures var r := Retire(sc, meta, stillReady);
            FullBut(r.Active().cells, meta, None) && FullBut(r.Backed().cells, meta, None)
  {
  }

  lemma ChooseBudgets(sc: Sched, meta: seq<Meta>)
    requires sc.Shaped(|sc.primary.cells|)
    requires FullBut(sc.Active().cells, meta, None) && FullBut(sc.Backed().cells, meta, None)
    ensures Budgeted(Choose(sc), meta) && FreshRunner(Choose(sc), meta)
  {
    hide BestTo;
  }

  // ---- One step ------------------------------------------------------------------------------------------

  /** Whoever runs after the step does so with this much of a quantum. */
  ghost predicate Spends(s: State, a: Action, q: State)
    requires WF(s)
  {
    && Budgeted(q.sched, s.meta)
    && (Elections(s, a) == 1 ==> FreshRunner(q.sched, s.meta))
    && (Elections(s, a) == 0 && s.sched.current.Some? ==>
          && q.sched.current == s.sched.current && s.sched.current.value < |q.sched.Active().cells|
          && q.sched.Running(0) == s.sched.Running(0)
          && RunnerQuantum(q.sched) == RunnerQuantum(s.sched) - if a.DoTick? then 1 else 0)
    && (Elections(s, a) == 0 && s.sched.current.None? ==> q.sched.current.None?)
  }

  lemma MoveSpends(s: State, a: Action)
    requires Steady(s) && EnvOk(s, a) && Legal(s, a) && !Trips(s, a) && !a.DoTick? && Budgeted(s.sched, s.meta)
    ensures Spends(s, a, Step(s, a))
  {
    hide Inv, Legal, EnvOk, Step, Trips, NewState, Rouses, SchedInv, Budgeted, ElectSched;
    InvSched(s);
    MovedStep(s, a);
    InvTables(s);
    var sc := Enqueue(s.sched, s.meta, Rouses(s, a));
    EnqueueFed(s.sched, s.size, s.meta, s.st, s.started, Rouses(s, a));
    if Elects(s, a) {
      ElectBudgets(sc, s.size, s.meta, a.DoYield?);
    }
  }

  lemma InvTables(s: State)
    requires Inv(s)
    ensures WF(s) && SchedTables(s.sched, s.size, s.meta, s.st, s.started)
  {
  }

  lemma BurnBudgets(sc: Sched, meta: seq<Meta>)
    requires sc.Shaped(|sc.primary.cells|) && sc.current.Some? && Budgeted(sc, meta)
    ensures Budgeted(BurnQuantum(sc), meta)
  {
  }

  lemma RefreshSpends(s: State)
    requires Inv(s) && Budgeted(s.sched, s.meta)
    ensures Spends(s, DoTick, Refresh(s))
  {
    if s.sched.current.Some? {
      RefreshIs(s);
      BurnRank(s.sched, s.size, s.meta, s.st, s.started, 0);
      BurnBudgets(s.sched, s.meta);
      hide Refresh, ElectSched, BurnQuantum, Inv, Budgeted, Rank;
      if Spent(s) {
        ElectBudgets(BurnQuantum(s.sched), s.size, s.meta, true);
      }
    }
  }

  lemma FedTrans(a: Sched, b: Sched, c: Sched, meta: seq<Meta>)
    requires Fed(a, b, meta) && Fed(b, c, meta)
    ensures Fed(a, c, meta)
  {
    hide Budgeted;
  }

  lemma TickJobFed(p: State, i: nat)
    requires Inv(p) && i < p.size && !Jams(p, i)
    ensures Fed(p.sched, TickJob(p, i).sched, p.meta)
  {
    hide Inv, TickJob, Budgeted, Insert, SchedTables, Jams;
    InvTables(p);
    TickJobEffect(p, i);
    InsertFed(p.sched, p.size, p.meta, p.st, p.started, p.delays[i].handler);
  }

  lemma TickAlarmFed(p: State, i: nat)
    requires Inv(p) && i < p.size
    ensures Fed(p.sched, TickAlarm(p, i).sched, p.meta)
  {
    hide Inv, TickAlarm, Budgeted, Insert, SchedTables;
    InvTables(p);
    if Hits(p, i) {
      TickAlarmHit(p, i);
      InsertFed(p.sched, p.size, p.meta, p.st, p.started, p.alarms[i].handler);
    } else {
      TickAlarmEffect(p, i);
    }
  }

  /** The loops of the tick, after `i` cells each, have only woken tasks. */
  ghost predicate JobsFed(s: State, r: State, p: State, i: nat)
    requires WF(s) && WF(r)
  {
    TickedSafely(s, p, i, Current(r)) && p.meta == r.meta && Fed(r.sched, p.sched, r.meta)
  }

  ghost predicate AlarmsFed(h: State, p: State, i: nat)
    requires WF(h)
  {
    RungSafely(h, p, i) && p.meta == h.meta && Fed(h.sched, p.sched, h.meta)
  }

  lemma JobsFedStep(s: State, r: State, p: State, i: nat)
    requires Inv(s) && WF(r) && i < s.size && p.size == s.size && JobsFed(s, r, p, i) && !Jams(s, i)
    ensures JobsFed(s, r, TickJob(p, i), i + 1)
  {
    hide Inv, TickJob, Ticked, Jams, TickedSafely, Fed;
    InvShape(s);
    TickedSafelyParts(s, p, i, Current(r));
    InvShape(p);
    JamsTicked(s, p, i);
    TickJobFed(p, i);
    FedTrans(r.sched, p.sched, TickJob(p, i).sched, r.meta);
    TickedSafelyStep(s, p, i, Current(r));
  }

  lemma AlarmsFedStep(h: State, p: State, i: nat)
    requires Inv(h) && i < h.size && p.size == h.size && AlarmsFed(h, p, i)
    ensures AlarmsFed(h, TickAlarm(p, i), i + 1)
  {
    hide Inv, TickAlarm, RungSafely, Fed;
    InvShape(h);
    RungSafelyParts(h, p, i);
    InvShape(p);
    TickAlarmFed(p, i);
    FedTrans(h.sched, p.sched, TickAlarm(p, i).sched, h.meta);
    RungSafelyStep(h, p, i);
  }

  lemma FedSame(sc: Sched, meta: seq<Meta>)
    ensures Fed(sc, sc, meta)
  {
  }

  lemma HalfwayFed(s: State)
    requires Inv(s) && !Jammed(s)
    ensures Fed(Refresh(s).sched, Halfway(s).sched, s.meta)
  {
    hide Inv, WF, TickJob, TickJobs, Jams, TickedSafely, Fed, Refresh, Ticked;
    InvShape(s);
    var r := RefreshFirst(s);
    InvShape(r);
    RefreshTicked(s);
    TickedSafelyParts(s, r, 0, Current(r));
    FedSame(r.sched, r.meta);
    var good := (p: State, i: nat) => JobsFed(s, r, p, i);
    forall p, i: nat | WF(p) && p.size == r.size && i < s.size && good(p, i) ensures good(TickJob(p, i), i + 1) {
      JobsFedStep(s, r, p, i);
    }
    TickJobsInduct(r, s.size, good);
  }

  lemma AlarmLoopFed(h: State)
    requires Inv(h)
    ensures Fed(h.sched, TickAlarms(h, h.size).sched, h.meta)
  {
    hide Inv, WF, TickAlarm, TickAlarms, RungSafely, Fed;
    InvShape(h);
    RungSafelyNone(h);
    FedSame(h.sched, h.meta);
    var good := (p: State, i: nat) => AlarmsFed(h, p, i);
    forall p, i: nat | WF(p) && p.size == h.size && i < h.size && good(p, i) ensures good(TickAlarm(p, i), i + 1) {
      AlarmsFedStep(h, p, i);
    }
    TickAlarmsInduct(h, h.size, good);
  }

  /** After the refresh a tick only wakes tasks. */
  lemma TickFed(s: State)
    requires Inv(s) && !Jammed(s)
    ensures Fed(Refresh(s).sched, Tick(s).sched, s.meta)
  {
    hide Inv, Refresh, TickJobs, TickAlarms, Jammed, Fed;
    InvShape(s);
    HalfwayFed(s);
    HalfwayKeeps(s);
    AlarmLoopFed(Halfway(s));
    FedTrans(Refresh(s).sched, Halfway(s).sched, Tick(s).sched, s.meta);
  }

  lemma TickSpends(s: State)
    requires Steady(s) && !Trips(s, DoTick) && Budgeted(s.sched, s.meta)
    ensures Spends(s, DoTick, Step(s, DoTick))
  {
    hide Inv, Refresh, TickJobs, TickAlarms, Jammed, Budgeted, Step, Elections;
    InvShape(s);
    RefreshSpends(s);
    TickFed(s);
    TickStep(s);
  }

  /** Every step keeps the budgets; only a tick costs the running job anything, and only an
      election ends its turn. */
  lemma StepSpends(s: State, a: Action)
    requires Steady(s) && EnvOk(s, a) && Legal(s, a) && !Trips(s, a) && Budgeted(s.sched, s.meta)
    ensures Spends(s, a, Step(s, a))
  {
    hide Inv, Spends, Trips, Budgeted, Step;
    if a.DoTick? {
      TickSpends(s);
    } else {
      MoveSpends(s, a);
    }
  }

  // ---- Whole runs ----------------------------------------------------------------------------------------

  lemma {:induction false} BootBudgeted(size: nat, meta: seq<Meta>, auto: seq<bool>, k: nat)
    requires |meta| <= size && MetaOk(meta) && |auto| == |meta| && k < |meta|
    ensures Budgeted(Boot(size, meta, auto, k).sched, meta)
  {
    hide BootTask, Budgeted, Inv, Clear, NoneHeld, StartedTo, NoReturns, Zeroed, WF, MetaOk;
    if k == 0 {
      ZeroedBudgeted(size, meta);
    } else {
      BootBudgeted(size, meta, auto, k - 1);
      BootInv(size, meta, auto, k - 1);
      BootTaskBudgeted(Boot(size, meta, auto, k - 1), k - 1, auto[k - 1]);
    }
  }

  lemma ZeroedBudgeted(size: nat, meta: seq<Meta>)
    requires 1 <= |meta| <= size
    ensures Budgeted(Zeroed(size, meta).sched, meta)
  {
  }

  lemma BootTaskBudgeted(p: State, t: nat, auto: bool)
    requires Inv(p) && t < p.N() && Budgeted(p.sched, p.meta)
    ensures Budgeted(BootTask(p, t, auto).sched, p.meta)
  {
    hide Inv, Budgeted, Insert, CanSchedule;
    InvTables(p);
    InsertFed(p.sched, p.size, p.meta, p.st, p.started, t);
  }

  /** In every state of a run every queued job other than the running one has its whole quantum. */
  lemma {:induction false} BudgetedRun(trace: seq<State>, acts: seq<Action>, k: nat)
    requires IsRun(trace, acts) && Steady(trace[0]) && Budgeted(trace[0].sched, trace[0].meta)
    requires k <= |acts| && !trace[k].panicked
    ensures Budgeted(trace[k].sched, trace[k].meta) && trace[k].meta == trace[0].meta
  {
    hide IsRun, Inv, Clear, Trips, Budgeted, Step, EnvOk, Legal;
    RunShape(trace, acts);
    if k > 0 {
      RunStep(trace, acts, k - 1);
      BudgetedRun(trace, acts, k - 1);
      StepSpends(trace[k - 1], acts[k - 1]);
    }
  }

  /** Task `t` has the core and `left` ticks of its turn to go. */
  ghost predicate OnCore(s: State, t: nat, left: nat) {
    WF(s) && s.sched.current.Some? && Current(s) == t && RunnerQuantum(s.sched) == left
  }

  /** A step that gives the core to another task is an election, and the task starts a whole turn. */
  lemma TurnBegins(s: State, a: Action, t: nat)
    requires Steady(s) && EnvOk(s, a) && Legal(s, a) && !Trips(s, a) && Budgeted(s.sched, s.meta)
    requires t < s.Users() && Current(s) != t && Current(Step(s, a)) == t
    ensures OnCore(Step(s, a), t, s.meta[t].quantum)
  {
    hide Inv, Trips, Budgeted, Step, EnvOk, Legal, Elections;
    InvShape(s);
    StepSpends(s, a);
  }

  /** A running task that is still ready after a step and did not yield was not asked to leave. */
  lemma StaysOn(s: State, a: Action)
    requires Steady(s) && EnvOk(s, a) && Legal(s, a) && !Trips(s, a) && !a.DoTick? && !a.DoYield?
    requires Step(s, a).st[Current(s)] == Ready
    ensures Elections(s, a) == 0
  {
    hide Inv, Trips, Step, EnvOk, Legal, NewState, Rouses, ElectSched, Enqueue;
    InvShape(s);
    MovedStep(s, a);
    if Rouses(s, a).Some? {
      RousesBlocked(s, a);
    }
  }

  lemma TurnGoesOn(s: State, a: Action, t: nat, left: nat)
    requires Steady(s) && EnvOk(s, a) && Legal(s, a) && !Trips(s, a) && Budgeted(s.sched, s.meta)
    requires OnCore(s, t, left) && !a.DoYield? && (a.DoTick? ==> left > 1) && Step(s, a).st[t] == Ready
    ensures OnCore(Step(s, a), t, left - if a.DoTick? then 1 else 0)
  {
    hide Inv, Trips, Budgeted, Step, EnvOk, Legal;
    InvShape(s);
    if !a.DoTick? {
      StaysOn(s, a);
    }
    StepSpends(s, a);
  }

  /** The turn is over: an election is held, which leaves the core to task `t` only when no other
      job was left in the active jobset; it then starts a whole turn again. */
  ghost predicate TurnOver(s: State, q: State, t: nat) {
    && WF(q) && t < q.N()
    && (s.sched.Active().num > 1 ==> Current(q) != t)
    && (Current(q) == t ==> OnCore(q, t, q.meta[t].quantum))
  }

  lemma ElectLeaves(sc: Sched, size: nat, meta: seq<Meta>, st: seq<JobState>, started: seq<bool>)
    requires SchedTables(sc, size, meta, st, started) && sc.current.Some? && sc.Running(0) < |meta| - 1
    requires st[sc.Running(0)] == Ready && sc.Active().num > 1
    ensures ElectSched(sc, meta, true).Running(|meta| - 1) != sc.Running(0)
  {
    RunnerKnown(sc, size, meta, st, started);
    AccountFor(sc, size, meta, st, started);
    var ready, h := ReadySet(st, started), sc.Running(0);
    RetireKeeps(sc, size, meta, |meta| - 1, ready, BlockedRunner(sc, st));
    ChooseKeeps(Retire(sc, meta, true), size, meta, |meta| - 1, ready);
    var a, i := sc.Active().cells, sc.current.value;
    CellUpdate(a, i, a[i].(active := false));
    CountHolds(a, h);
    assert Copies(sc, h) == 1;
    CountHolds(a[i := a[i].(active := false)], h);
  }

  lemma BurnNum(sc: Sched, size: nat, meta: seq<Meta>)
    requires |meta| > 0 && Tables(sc, size, meta, |meta| - 1) && sc.current.Some?
    ensures BurnQuantum(sc).Active().num == sc.Active().num
  {
  }

  lemma RefreshLeaves(s: State, t: nat)
    requires Inv(s) && OnCore(s, t, 1) && s.sched.Active().num > 1
    ensures Current(Refresh(s)) != t
  {
    RefreshIs(s);
    RunnerReady(s);
    BurnKeeps(s.sched, s.size, s.meta, s.st, s.started);
    BurnNum(s.sched, s.size, s.meta);
    hide Refresh, ElectSched, BurnQuantum, SchedInv, Mail, WakeInv, DelayInv, RetInv, SchedTables;
    ElectLeaves(BurnQuantum(s.sched), s.size, s.meta, s.st, s.started);
  }

  lemma TurnEnds(s: State, t: nat)
    requires Steady(s) && !Trips(s, DoTick) && Budgeted(s.sched, s.meta) && OnCore(s, t, 1)
    ensures TurnOver(s, Step(s, DoTick), t)
  {
    hide Inv, Refresh, TickJobs, TickAlarms, Budgeted, Step, Tick, Jammed;
    InvShape(s);
    TickKeeps(s);
    TickStep(s);
    StepSpends(s, DoTick);
    if s.sched.Active().num > 1 {
      RefreshLeaves(s, t);
    }
    RunnerReady(s);
  }

  /** Task `t` stays ready and does not yield at steps `from` to `k`. */
  ghost predicate Willing(trace: seq<State>, acts: seq<Action>, t: nat, from: nat, k: nat)
    requires k <= |acts| < |trace|
  {
    forall n :: from <= n < k ==> !acts[n].DoYield? && t < |trace[n + 1].st| && trace[n + 1].st[t] == Ready
  }

  lemma WillingLast(trace: seq<State>, acts: seq<Action>, t: nat, from: nat, k: nat)
    requires from < k <= |acts| < |trace| && Willing(trace, acts, t, from, k)
    ensures Willing(trace, acts, t, from, k - 1)
    ensures !acts[k - 1].DoYield? && t < |trace[k].st| && trace[k].st[t] == Ready
  {
    assert trace[k - 1 + 1] == trace[k];
  }

  /** Where a turn of `budget` ticks stands after `n` of them. */
  ghost predicate InTurn(before: State, s: State, t: nat, budget: nat, n: nat, ticked: bool) {
    && (n < budget ==> OnCore(s, t, budget - n))
    && (n == budget && ticked ==> TurnOver(before, s, t))
  }

  lemma InTurnNext(s: State, a: Action, t: nat, budget: nat, n: nat)
    requires Steady(s) && EnvOk(s, a) && Legal(s, a) && !Trips(s, a) && Budgeted(s.sched, s.meta)
    requires n < budget && OnCore(s, t, budget - n) && !a.DoYield? && t < |Step(s, a).st| && Step(s, a).st[t] == Ready
    ensures InTurn(s, Step(s, a), t, budget, n + (if a.DoTick? then 1 else 0), a.DoTick?)
  {
    hide Inv, Clear, Trips, Budgeted, Step, EnvOk, Legal, OnCore, TurnOver;
    if a.DoTick? && budget - n == 1 {
      TurnEnds(s, t);
    } else {
      TurnGoesOn(s, a, t, budget - n);
    }
  }

  lemma {:induction false} TurnRun(trace: seq<State>, acts: seq<Action>, t: nat, budget: nat, from: nat, k: nat)
    requires IsRun(trace, acts) && Steady(trace[0]) && Budgeted(trace[0].sched, trace[0].meta)
    requires from <= k <= |acts| && !trace[k].panicked && |trace| == |acts| + 1
    requires OnCore(trace[from], t, budget) && Willing(trace, acts, t, from, k)
    requires 0 < budget && TicksIn(acts, k) - TicksIn(acts, from) <= budget
    ensures TicksIn(acts, from) <= TicksIn(acts, k)
    ensures InTurn(if from < k then trace[k - 1] else trace[k], trace[k], t, budget,
                   TicksIn(acts, k) - TicksIn(acts, from), from < k && acts[k - 1].DoTick?)
    decreases k
  {
    hide IsRun, Inv, Clear, Trips, Budgeted, Step, EnvOk, Legal, Willing, OnCore, TurnOver;
    if k > from {
      RunStep(trace, acts, k - 1);
      WillingLast(trace, acts, t, from, k);
      BudgetedRun(trace, acts, k - 1);
      TurnRun(trace, acts, t, budget, from, k - 1);
      var n := TicksIn(acts, k - 1) - TicksIn(acts, from);
      if n < budget {
        InTurnNext(trace[k - 1], acts[k - 1], t, budget, n);
      }
    }
  }

  /** A task that gets the core, stays ready and does not yield keeps the core until exactly the
      tick of number `quantum` after it got it; in that tick an election is held. */
  lemma QuantumExact(trace: seq<State>, acts: seq<Action>, t: nat, j: nat, k: nat)
    requires IsRun(trace, acts) && Steady(trace[0]) && Budgeted(trace[0].sched, trace[0].meta)
    requires j < k <= |acts| && !trace[k].panicked && |trace| == |acts| + 1
    requires WF(trace[j]) && WF(trace[j + 1]) && t < trace[j].Users()
    requires Current(trace[j]) != t && Current(trace[j + 1]) == t && Willing(trace, acts, t, j + 1, k)
    ensures trace[j].meta == trace[0].meta
    ensures var n := TicksIn(acts, k) - TicksIn(acts, j + 1);
            && (n < trace[0].meta[t].quantum ==> WF(trace[k]) && Current(trace[k]) == t)
            && (n == trace[0].meta[t].quantum && acts[k - 1].DoTick? && j + 1 < k ==>
                  TurnOver(trace[k - 1], trace[k], t))
  {
    hide IsRun, Inv, Clear, Trips, Budgeted, Step, EnvOk, Legal, Willing, TurnOver, TicksIn;
    EarlierCalm(trace, acts, j + 1, k);
    RunStep(trace, acts, j);
    BudgetedRun(trace, acts, j);
    TurnBegins(trace[j], acts[j], t);
    var budget := trace[0].meta[t].quantum;
    QuantumPositive(trace[j], t);
    if TicksIn(acts, k) - TicksIn(acts, j + 1) <= budget {
      TurnRun(trace, acts, t, budget, j + 1, k);
    }
  }

  lemma QuantumPositive(s: State, t: nat)
    requires Inv(s) && t < s.Users()
    ensures s.meta[t].quantum >= 1
  {
  }

  /** The same for every run from boot. */
  lemma BootQuantumExact(size: nat, meta: seq<Meta>, auto: seq<bool>, trace: seq<State>, acts: seq<Action>, t: nat,
                         j: nat, k: nat)
    requires |meta| <= size && MetaOk(meta) && |auto| == |meta|
    requires IsRun(trace, acts) && trace[0] == Boot(size, meta, auto, |meta| - 1)
    requires j < k <= |acts| && !trace[k].panicked && |trace| == |acts| + 1
    requires WF(trace[j]) && WF(trace[j + 1]) && t < |meta| - 1
    requires Current(trace[j]) != t && Current(trace[j + 1]) == t && Willing(trace, acts, t, j + 1, k)
    ensures var n := TicksIn(acts, k) - TicksIn(acts, j + 1);
            && (n < meta[t].quantum ==> WF(trace[k]) && Current(trace[k]) == t)
            && (n == meta[t].quantum && acts[k - 1].DoTick? && j + 1 < k ==> TurnOver(trace[k - 1], trace[k], t))
  {
    hide IsRun, Boot, Budgeted, Willing, TurnOver, TicksIn, Inv, Clear, NoneHeld, StartedTo;
    BootInv(size, meta, auto, |meta| - 1);
    BootBudgeted(size, meta, auto, |meta| - 1);
    EarlierCalm(trace, acts, j, k);
    BudgetedRun(trace, acts, j);
    QuantumExact(trace, acts, t, j, k);
  }
}
