/** A task that becomes ready competes in the very next election, and priority decides it. */
module Priorities {
  import opened Slots
  import opened Rrmq
  import opened KernelSpec
  import opened Invariants
  import opened GateProofs
  import opened EventProofs
  import opened TickProofs
  import opened Protocol
  import opened Moves
  import opened Carriage
  import opened BoundedWaiting
  import opened Quantum

  /** Task `t` is queued in the jobset that is being served. */
  ghost predicate Queued(sc: Sched, t: nat) {
    Holds(sc.Active().cells, t)
  }

  /** The job that has the core has at least the priority of task `t`. */
  ghost predicate Outranks(s: State, t: nat) {
    WF(s) && t < s.N() && s.sched.current.Some? && s.meta[Current(s)].priority >= s.meta[t].priority
  }

  lemma InsertQueues(sc: Sched, size: nat, meta: seq<Meta>, st: seq<JobState>, started: seq<bool>, t: nat)
    requires SchedTables(sc, size, meta, st, started) && t < |meta|
    ensures var r := sc.WithActive(Insert(sc.Active(), t, meta[t]));
            Queued(r, t) && forall u :: Queued(sc, u) ==> Queued(r, u)
  {
    ActiveRoom(sc, size, meta, st, started);
    InsertedHolds(sc, size, meta, t);
    InsertCount(sc.Active(), t, meta[t]);
    var r := sc.WithActive(Insert(sc.Active(), t, meta[t]));
    forall u | Queued(sc, u) ensures Queued(r, u) {
      CountHolds(sc.Active().cells, u);
      CountHolds(r.Active().cells, u);
    }
  }

  lemma EnqueueQueues(sc: Sched, size: nat, meta: seq<Meta>, st: seq<JobState>, started: seq<bool>, t: Option<nat>)
    requires SchedTables(sc, size, meta, st, started) && (t.Some? ==> t.value < |meta|)
    ensures var r := Enqueue(sc, meta, t);
            (t.Some? ==> Queued(r, t.value)) && forall u :: Queued(sc, u) ==> Queued(r, u)
  {
    hide Insert, Queued;
    if t.Some? {
      InsertQueues(sc, size, meta, st, started, t.value);
    }
  }

  /** An election with task `t` queued, and not running, serves the same jobset: `t` stays queued and
      the job that is chosen has at least its priority. */
  lemma ElectServes(sc: Sched, size: nat, meta: seq<Meta>, st: seq<JobState>, started: seq<bool>, stillReady: bool,
                    t: nat)
    requires SchedTables(sc, size, meta, st, started) && QuantaButRunner(sc) && MetaOk(meta)
    requires sc.current.Some? && sc.Running(0) < |st| ==> (stillReady <==> st[sc.Running(0)] == Ready)
    requires Queued(sc, t) && (sc.current.Some? ==> sc.Running(0) != t)
    ensures sc.current.Some? ==> sc.Running(0) < |meta|
    ensures var r := ElectSched(sc, meta, stillReady);
            && Queued(r, t) && t < |meta| && r.current.Some? && r.current.value < size && r.Running(0) < |meta|
            && meta[r.Running(0)].priority >= meta[t].priority
  {
    hide ElectSched, QuantaButRunner, MetaOk, IsBest, SchedInv, Conserves, CellsOk;
    ElectSchedInv(sc, size, meta, st, started, stillReady);
    var i := ElectKeepsCell(sc, size, meta, st, started, stillReady, t);
    var r := ElectSched(sc, meta, stillReady);
    ElectedBest(sc, size, meta, st, started, stillReady, t);
    InvTablesOf(r, size, meta, st, started);
    RankedChoice(r, size, meta, st, started, i);
  }

  lemma InvTablesOf(r: Sched, size: nat, meta: seq<Meta>, st: seq<JobState>, started: seq<bool>)
    requires SchedInv(r, size, meta, st, started)
    ensures SchedTables(r, size, meta, st, started) && |r.Active().cells| == size
  {
  }

  /** A ready task makes the election choose somebody. */
  lemma ElectedBest(sc: Sched, size: nat, meta: seq<Meta>, st: seq<JobState>, started: seq<bool>, stillReady: bool,
                    t: nat)
    requires SchedTables(sc, size, meta, st, started) && QuantaButRunner(sc) && MetaOk(meta)
    requires sc.current.Some? && sc.Running(0) < |st| ==> (stillReady <==> st[sc.Running(0)] == Ready)
    requires Queued(sc, t) && (sc.current.Some? ==> sc.Running(0) != t)
    ensures sc.current.Some? ==> sc.Running(0) < |meta|
    ensures var r := ElectSched(sc, meta, stillReady); r.current.Some? && IsBest(r.Active().cells, r.current.value)
  {
    hide ElectSched, QuantaButRunner, MetaOk, IsBest, SchedInv;
    ElectSchedInv(sc, size, meta, st, started, stillReady);
    CountHolds(sc.Active().cells, t);
    assert Copies(sc, t) >= 1;
    assert t in ReadySet(st, started);
  }

  lemma RetiredCell(sc: Sched, size: nat, meta: seq<Meta>, st: seq<JobState>, started: seq<bool>, stillReady: bool,
                    i: nat)
    requires SchedTables(sc, size, meta, st, started) && sc.current.Some? && i < size && i != sc.current.value
    requires sc.Running(0) < |st| ==> (stillReady <==> st[sc.Running(0)] == Ready)
    requires sc.Active().cells[i].active
    ensures sc.Running(0) < |meta|
    ensures var p := Retire(sc, meta, stillReady);
            p.Active().cells[i] == sc.Active().cells[i] && p.Active().num != 0
  {
    AccountFor(sc, size, meta, st, started);
    RetireKeeps(sc, size, meta, |meta| - 1, ReadySet(st, started), BlockedRunner(sc, st));
    SizeBounds(Retire(sc, meta, stillReady).Active().cells);
  }

  lemma ElectKeepsCell(sc: Sched, size: nat, meta: seq<Meta>, st: seq<JobState>, started: seq<bool>, stillReady: bool,
                       t: nat) returns (i: nat)
    requires SchedTables(sc, size, meta, st, started)
    requires sc.current.Some? && sc.Running(0) < |st| ==> (stillReady <==> st[sc.Running(0)] == Ready)
    requires Queued(sc, t) && (sc.current.Some? ==> sc.Running(0) != t)
    ensures sc.current.Some? ==> sc.Running(0) < |meta|
    ensures i < size && i < |ElectSched(sc, meta, stillReady).Active().cells|
    ensures IsFor(ElectSched(sc, meta, stillReady).Active().cells[i], t)
  {
    i :| 0 <= i < |sc.Active().cells| && IsFor(sc.Active().cells[i], t);
    SizeBounds(sc.Active().cells);
    if sc.current.Some? {
      RetiredCell(sc, size, meta, st, started, stillReady, i);
    }
    hide Retire;
    var p := if sc.current.None? then sc else Retire(sc, meta, stillReady);
    QueuedChosen(p, i);
  }

  /** With a job in the active jobset, the jobsets are not exchanged. */
  lemma QueuedChosen(p: Sched, i: nat)
    requires p.Shaped(|p.primary.cells|) && i < |p.Active().cells| && p.Active().cells[i].active
    ensures p.Active().num != 0 ==> Choose(p).Active() == p.Active() && Choose(p).current == Best(p.Active().cells)
  {
  }

  lemma RankedChoice(r: Sched, size: nat, meta: seq<Meta>, st: seq<JobState>, started: seq<bool>, i: nat)
    requires SchedTables(r, size, meta, st, started) && i < size && r.Active().cells[i].active
    requires r.current.Some? && IsBest(r.Active().cells, r.current.value)
    ensures r.Running(0) < |meta| && r.Active().cells[i].handler < |meta|
    ensures meta[r.Running(0)].priority >= meta[r.Active().cells[i].handler].priority
  {
  }

  // ---- One step ------------------------------------------------------------------------------------------------

  /** A task that the step wakes, or that is queued already and does not run, is queued after the step,
      and an election of the step chooses a job of at least its priority. */
  lemma MoveServes(s: State, a: Action, t: nat)
    requires Steady(s) && EnvOk(s, a) && Legal(s, a) && !Trips(s, a) && !a.DoTick?
    requires Rouses(s, a) == Some(t) || (Queued(s.sched, t) && t != Current(s))
    ensures var q := Step(s, a); Queued(q.sched, t) && (Elects(s, a) ==> Outranks(q, t))
  {
    hide Inv, SchedInv, SchedTables, Legal, EnvOk, MetaOk, Enqueue, Queued, NewState, Rouses, Step, Trips, ElectSched;
    InvSched(s);
    MovedStep(s, a);
    var sc, st, started := Enqueue(s.sched, s.meta, Rouses(s, a)), StatesAfter(s, a), StartedAfter(s, a);
    MidSched(s, a);
    MidShape(sc, s.size, s.meta, st, started);
    MidShape(s.sched, s.size, s.meta, s.st, s.started);
    EnqueueQueues(s.sched, s.size, s.meta, s.st, s.started, Rouses(s, a));
    RunnerReady(s);
    YieldsReady(s, a);
    if Rouses(s, a).Some? {
      RousesBlocked(s, a);
    }
    if Elects(s, a) {
      ElectServes(sc, s.size, s.meta, st, started, a.DoYield?, t);
    }
  }

  lemma YieldsReady(s: State, a: Action)
    requires WF(s)
    ensures a.DoYield? ==> NewState(s, a) == Ready
  {
  }

  /** A ready task is queued in exactly one of the two jobsets, any other task in none. */
  lemma QueuedOnce(s: State, t: nat)
    requires Inv(s) && t < s.N()
    ensures t in ReadySet(s.st, s.started) ==> (Queued(s.sched, t) <==> !Holds(s.sched.Backed().cells, t))
    ensures t !in ReadySet(s.st, s.started) ==> !Queued(s.sched, t) && !Holds(s.sched.Backed().cells, t)
  {
    CountHolds(s.sched.Active().cells, t);
    CountHolds(s.sched.Backed().cells, t);
    assert Copies(s.sched, t) == if t in ReadySet(s.st, s.started) then 1 else 0;
  }

  /** Tasks that a tick wakes were started and not ready. */
  lemma Dozing(s: State, t: nat)
    requires Inv(s) && t < s.N() && !Jammed(s)
    ensures DueTo(s.delays, t, s.size) || Misfired(s, t) ==> s.st[t] != Ready && t < s.Users() && s.started[t]
  {
    MisfiredWaits(s, t);
    HeldDue(s, t);
    hide Misfired, Jammed;
    if DueTo(s.delays, t, s.size) {
      var j :| 0 <= j < s.size && Due(s.delays[j], t);
    }
  }

  /** A tick wakes a task into the jobset that is being served. */
  lemma TickQueues(s: State, t: nat)
    requires Inv(s) && t < s.N() && !Jammed(s) && (DueTo(s.delays, t, s.size) || Misfired(s, t))
    ensures Queued(Tick(s).sched, t)
  {
    hide Inv, Jammed, DueTo, Misfired, Tick, Queued, WF;
    InvShape(s);
    Dozing(s, t);
    NotBacked(s, t);
    WokenReady(s, t);
    TickKeeps(s);
    QueuedOnce(Tick(s), t);
  }

  lemma NotBacked(s: State, t: nat)
    requires Inv(s) && t < s.N() && !Jammed(s) && s.st[t] != Ready
    ensures !Holds(Tick(s).sched.Backed().cells, t)
  {
    RefreshKeeps(s);
    hide Inv, Jammed, Tick, Refresh, Queued;
    InvShape(s);
    TickFed(s);
    QueuedOnce(Refresh(s), t);
  }

  lemma WokenReady(s: State, t: nat)
    requires Inv(s) && t < s.N() && !Jammed(s) && (DueTo(s.delays, t, s.size) || Misfired(s, t))
    ensures t in ReadySet(Tick(s).st, Tick(s).started) && Tick(s).N() == s.N()
  {
    hide Inv, Jammed, DueTo, Misfired, Tick;
    InvShape(s);
    Dozing(s, t);
    TickColumns(s, t);
    TickCells(s);
  }

  lemma BurnQueues(sc: Sched, t: nat)
    requires sc.Shaped(|sc.primary.cells|) && sc.current.Some? && Queued(sc, t)
    ensures Queued(BurnQuantum(sc), t)
  {
    var i :| 0 <= i < |sc.Active().cells| && IsFor(sc.Active().cells[i], t);
    assert IsFor(BurnQuantum(sc).Active().cells[i], t);
  }

  /** A task that is queued and does not run is queued after the refresh of a tick, and an election of
      the refresh chooses a job of at least its priority. */
  lemma RefreshServes(s: State, t: nat)
    requires Inv(s) && Queued(s.sched, t) && t != Current(s)
    ensures Queued(Refresh(s).sched, t) && (Spent(s) ==> Outranks(Refresh(s), t))
  {
    if s.sched.current.Some? {
      RefreshIs(s);
      BurnQueues(s.sched, t);
      BurnKeeps(s.sched, s.size, s.meta, s.st, s.started);
      RunnerReady(s);
      hide Refresh, ElectSched, BurnQuantum, SchedInv, SchedTables, Mail, WakeInv, DelayInv, RetInv, Queued;
      if Spent(s) {
        ElectServes(BurnQuantum(s.sched), s.size, s.meta, s.st, s.started, true, t);
      }
    }
  }

  lemma TickServes(s: State, t: nat)
    requires Inv(s) && !Jammed(s) && t in ReadySet(s.st, s.started) && Queued(s.sched, t) && t != Current(s)
    ensures Queued(Tick(s).sched, t) && (Spent(s) ==> Outranks(Tick(s), t))
  {
    RefreshKeeps(s);
    ReadyIndex(s, t);
    hide Inv, Jammed, DueTo, Misfired, Tick, Refresh, Queued, ReadySet;
    InvShape(s);
    RefreshServes(s, t);
    TickKeeps(s);
    TickColumns(s, t);
    TickCells(s);
    TickFed(s);
    StillReady(s, t);
    QueuedOnce(Refresh(s), t);
    QueuedOnce(Tick(s), t);
  }

  lemma ReadyIndex(s: State, t: nat)
    requires WF(s) && t in ReadySet(s.st, s.started)
    ensures t < s.Users() && s.st[t] == Ready && s.started[t]
  {
  }

  lemma StillReady(s: State, t: nat)
    requires Inv(s) && !Jammed(s) && t in ReadySet(s.st, s.started)
    ensures t in ReadySet(Tick(s).st, Tick(s).started)
  {
    ReadyIndex(s, t);
    hide Inv, Jammed, DueTo, Misfired, Tick;
    InvShape(s);
    TickColumns(s, t);
    TickCells(s);
  }

  // ---- Whole runs ------------------------------------------------------------------------------------------------

  /** The step makes task `t` ready. */
  ghost predicate Rouse(s: State, a: Action, t: nat)
    requires WF(s) && Legal(s, a)
  {
    if a.DoTick? then t < s.N() && (DueTo(s.delays, t, s.size) || Misfired(s, t)) else Rouses(s, a) == Some(t)
  }

  lemma RousedIsQueued(s: State, a: Action, t: nat)
    requires Steady(s) && EnvOk(s, a) && Legal(s, a) && !Trips(s, a) && Rouse(s, a, t)
    ensures Queued(Step(s, a).sched, t)
  {
    hide Inv, Step, Queued, DueTo, Misfired, Rouses, Tick, EnvOk, Legal;
    InvShape(s);
    if a.DoTick? {
      TickStep(s);
      TickQueues(s, t);
    } else {
      MoveServes(s, a, t);
    }
  }

  lemma StepServes(s: State, a: Action, t: nat)
    requires Steady(s) && EnvOk(s, a) && Legal(s, a) && !Trips(s, a)
    requires t in ReadySet(s.st, s.started) && Queued(s.sched, t) && t != Current(s)
    ensures var q := Step(s, a);
            Queued(q.sched, t) && t in ReadySet(q.st, q.started) && (Elections(s, a) == 1 ==> Outranks(q, t))
  {
    hide Inv, Step, Queued, ReadySet, Tick, EnvOk, Legal, NewState, Patience, Wakes, Jammed;
    InvShape(s);
    PatienceStep(s, a, t);
    if a.DoTick? {
      TickStep(s);
      TickServes(s, t);
    } else {
      MoveServes(s, a, t);
    }
  }

  lemma RousedIsReady(s: State, a: Action, t: nat)
    requires Steady(s) && EnvOk(s, a) && Legal(s, a) && !Trips(s, a) && Rouse(s, a, t)
    ensures t in ReadySet(Step(s, a).st, Step(s, a).started)
  {
    hide Inv, Step, DueTo, Misfired, Rouses, Tick, EnvOk, Legal, NewState, ElectSched, Enqueue, Jammed;
    InvShape(s);
    if a.DoTick? {
      TickStep(s);
      WokenReady(s, t);
    } else {
      MovedStep(s, a);
      RousesBlocked(s, a);
      BlockedStarted(s, t);
    }
  }

  lemma BlockedStarted(s: State, t: nat)
    requires Inv(s) && t < s.N()
    ensures s.st[t] != Ready ==> t < s.Users() && s.started[t]
  {
  }

  /** A task that became ready at step `i` and has not run since is queued in the jobset that is being
      served, and every election since has chosen a job of at least its priority. */
  lemma {:induction false} WokenCompetes(trace: seq<State>, acts: seq<Action>, t: nat, i: nat, k: nat)
    requires IsRun(trace, acts) && Steady(trace[0]) && i < k <= |acts| < |trace| && !trace[k].panicked
    requires WF(trace[i]) && Legal(trace[i], acts[i]) && Rouse(trace[i], acts[i], t)
    requires forall n :: i < n < k ==> WF(trace[n]) && Current(trace[n]) != t
    ensures WF(trace[k]) && Queued(trace[k].sched, t) && t in ReadySet(trace[k].st, trace[k].started)
    ensures i + 1 < k && Elections(trace[k - 1], acts[k - 1]) == 1 ==> Outranks(trace[k], t)
    decreases k
  {
    hide IsRun, Inv, Clear, Trips, Step, EnvOk, Legal, Queued, ReadySet, Rouse, Elections, Outranks;
    RunStep(trace, acts, k - 1);
    InvShape(trace[k]);
    if k == i + 1 {
      RousedIsQueued(trace[i], acts[i], t);
      RousedIsReady(trace[i], acts[i], t);
    } else {
      WokenCompetes(trace, acts, t, i, k - 1);
      StepServes(trace[k - 1], acts[k - 1], t);
    }
  }
}
