/** A ready task is elected within a bounded number of elections, and of ticks. */
module BoundedWaiting {
  import opened Slots
  import opened Rrmq
  import opened KernelSpec
  import opened Invariants
  import opened GateProofs
  import opened EventProofs
  import opened TickProofs
  import opened Protocol
  import opened Moves

  /** Elections a ready job waits for at most, from the sizes of the two jobsets. */
  function Rank(sc: Sched, t: nat): int {
    if Holds(sc.Active().cells, t) then sc.Active().num else 2 * sc.Active().num + sc.Backed().num
  }

  lemma RankInsert(sc: Sched, size: nat, meta: seq<Meta>, st: seq<JobState>, started: seq<bool>, w: nat, t: nat)
    requires SchedInv(sc, size, meta, st, started) && MetaOk(meta) && w < |meta| && t != w
    requires FirstFree(sc.Active().cells) < size
    ensures var r := sc.WithActive(Insert(sc.Active(), w, meta[w]));
            Rank(r, t) <= Rank(sc, t) + 2 && r.Backed() == sc.Backed()
  {
    var a := sc.Active();
    InsertCount(a, w, meta[w]);
    CountHolds(a.cells, t);
    CountHolds(Insert(a, w, meta[w]).cells, t);
  }

  /** What retiring the running job does to the cells of another job. */
  lemma RetireHolds(sc: Sched, size: nat, meta: seq<Meta>, tasks: nat, ready: set<nat>, blocked: Option<nat>, t: nat)
    requires Tables(sc, size, meta, tasks) && Conserves(sc, ready, blocked)
    requires sc.current.Some? && tasks < size && tasks <= |meta| && RunningAccounted(sc, size, ready, blocked)
    requires t in ready && t != sc.Running(0)
    ensures sc.Running(0) < |meta|
    ensures var r := Retire(sc, meta, sc.Running(0) in ready);
            && (Holds(r.Active().cells, t) <==> Holds(sc.Active().cells, t))
            && (Holds(r.Active().cells, t) || Holds(r.Backed().cells, t))
  {
    RetireKeeps(sc, size, meta, tasks, ready, blocked);
    var r := Retire(sc, meta, sc.Running(0) in ready);
    var a, i := sc.Active(), sc.current.value;
    CellUpdate(a.cells, i, a.cells[i].(active := false));
    CountHolds(a.cells, t);
    CountHolds(r.Active().cells, t);
    CountHolds(r.Backed().cells, t);
    assert Copies(r, t) == 1;
  }

  /** An election that does not choose `t` brings it one election closer, unless idle was running. */
  lemma RankElect(sc: Sched, size: nat, meta: seq<Meta>, tasks: nat, ready: set<nat>, blocked: Option<nat>,
                  stillReady: bool, t: nat)
    requires Tables(sc, size, meta, tasks) && Conserves(sc, ready, blocked)
    requires tasks < size && tasks <= |meta| && RunningAccounted(sc, size, ready, blocked)
    requires sc.current.Some? ==> (stillReady <==> sc.Running(0) in ready)
    requires t in ready && (sc.current.Some? ==> t != sc.Running(0))
    ensures sc.current.Some? ==> sc.Running(0) < |meta|
    ensures var r := ElectSched(sc, meta, stillReady);
            Rank(r, t) <= Rank(sc, t) - (if sc.current.Some? then 1 else 0)
  {
    if sc.current.Some? {
      RetireHolds(sc, size, meta, tasks, ready, blocked, t);
      RetireKeeps(sc, size, meta, tasks, ready, blocked);
      RankChoose(Retire(sc, meta, stillReady), size, meta, tasks, t);
    } else {
      CountHolds(sc.Active().cells, t);
      CountHolds(sc.Backed().cells, t);
      assert Copies(sc, t) == 1;
      RankChoose(sc, size, meta, tasks, t);
    }
  }

  lemma RankChoose(sc: Sched, size: nat, meta: seq<Meta>, tasks: nat, t: nat)
    requires Counters(sc, size, meta, tasks)
    requires Holds(sc.Active().cells, t) || Holds(sc.Backed().cells, t)
    ensures Rank(Choose(sc), t) ==
            if sc.Active().num == 0 then sc.Backed().num else Rank(sc, t)
    ensures sc.Active().num == 0 ==> !Holds(sc.Active().cells, t)
    ensures sc.Active().num >= 0 && sc.Backed().num >= 0
  {
    SizeBounds(sc.Active().cells);
    SizeBounds(sc.Backed().cells);
  }

  /** Ticks left to the running job. */
  function RunnerQuantum(sc: Sched): nat {
    if sc.current.Some? && sc.current.value < |sc.Active().cells| then sc.Active().cells[sc.current.value].data.quantum
    else 0
  }

  // ---- One step ------------------------------------------------------------------------------------------

  /** Elections `t` waits for at most; one more while idle runs, which an election cannot retire. */
  function Patience(s: State, t: nat): int {
    Rank(s.sched, t) + if s.sched.current.None? then 1 else 0
  }

  lemma ActiveRoom(sc: Sched, size: nat, meta: seq<Meta>, st: seq<JobState>, started: seq<bool>)
    requires SchedTables(sc, size, meta, st, started)
    ensures FirstFree(sc.Active().cells) < size
  {
    forall u ensures Count(sc.Active().cells, u) <= 1 {
      assert Copies(sc, u) <= 1;
    }
    InsertFinds(sc.Active().cells, meta, |meta| - 1);
  }

  /** The running task has taken its new state, nothing else has happened. */
  lemma Parted(s: State, a: Action)
    requires Inv(s) && EnvOk(s, a) && !a.DoTick?
    ensures var st := s.st[Current(s) := NewState(s, a)];
            SchedInv(s.sched, s.size, s.meta, st, s.started) && Dormant(st, s.started)
    ensures NewState(s, a) != Ready ==> s.sched.current.Some?
  {
    RunnerReady(s);
    var c, j := Current(s), NewState(s, a);
    if j == Ready {
      assert s.st[c := j] == s.st;
    } else {
      BlockSched(s.sched, s.size, s.meta, s.st, s.started, j);
      BlockColumns(s.st, s.started, s.ret, c, j, Some(NonSense));
    }
  }

  ghost function StatesAfter(s: State, a: Action): seq<JobState>
    requires WF(s) && Legal(s, a)
  {
    var st, w := s.st[Current(s) := NewState(s, a)], Rouses(s, a);
    if w.None? then st else st[w.value := Ready]
  }

  ghost function StartedAfter(s: State, a: Action): seq<bool>
    requires WF(s) && Legal(s, a)
  {
    if a.DoStart? && Rouses(s, a).Some? then s.started[Rouses(s, a).value := true] else s.started
  }

  lemma StartStates(s: State, a: Action)
    requires Inv(s) && Legal(s, a) && a.DoStart? && Rouses(s, a).Some?
    ensures s.st[Current(s) := NewState(s, a)] == s.st && s.st[Rouses(s, a).value := Ready] == s.st
  {
    RunnerReady(s);
  }

  /** The scheduler between the wake-up and the election of a step. */
  lemma MidSched(s: State, a: Action)
    requires Inv(s) && EnvOk(s, a) && Legal(s, a) && !a.DoTick?
    ensures SchedInv(Enqueue(s.sched, s.meta, Rouses(s, a)), s.size, s.meta, StatesAfter(s, a), StartedAfter(s, a))
    ensures Enqueue(s.sched, s.meta, Rouses(s, a)).current == s.sched.current
    ensures Enqueue(s.sched, s.meta, Rouses(s, a)).Running(0) == s.sched.Running(0)
    ensures RunnerQuantum(Enqueue(s.sched, s.meta, Rouses(s, a))) == RunnerQuantum(s.sched)
  {
    hide Inv, SchedInv, Dormant, Legal, NewState, Rouses, EnvOk, MetaOk;
    InvSched(s);
    Parted(s, a);
    var st, w := s.st[Current(s) := NewState(s, a)], Rouses(s, a);
    if w.Some? {
      RousesBlocked(s, a);
      if a.DoStart? {
        StartSched(s.sched, s.size, s.meta, s.st, s.started, w.value);
        StartStates(s, a);
      } else {
        ReadyUp(s.sched, s.size, s.meta, st, s.started, w.value);
      }
    }
  }

  lemma RankEnqueue(s: State, a: Action, t: nat)
    requires Inv(s) && Legal(s, a) && !a.DoTick? && Rouses(s, a) != Some(t)
    ensures Rank(Enqueue(s.sched, s.meta, Rouses(s, a)), t) <=
            Rank(s.sched, t) + if Rouses(s, a).Some? then 2 else 0
  {
    if Rouses(s, a).Some? {
      ActiveRoom(s.sched, s.size, s.meta, s.st, s.started);
      RankInsert(s.sched, s.size, s.meta, s.st, s.started, Rouses(s, a).value, t);
    }
  }

  /** A ready task that is not running stays ready. */
  lemma StaysReady(s: State, a: Action, t: nat)
    requires Inv(s) && EnvOk(s, a) && Legal(s, a) && !a.DoTick?
    requires t in ReadySet(s.st, s.started) && t != Current(s)
    ensures t in ReadySet(StatesAfter(s, a), StartedAfter(s, a)) && Rouses(s, a) != Some(t)
  {
    if Rouses(s, a).Some? {
      RousesBlocked(s, a);
    }
  }

  lemma RankElection(sc: Sched, size: nat, meta: seq<Meta>, st: seq<JobState>, started: seq<bool>,
                     stillReady: bool, t: nat)
    requires SchedTables(sc, size, meta, st, started) && QuantaButRunner(sc) && MetaOk(meta)
    requires sc.current.Some? && sc.Running(0) < |st| ==> (stillReady <==> st[sc.Running(0)] == Ready)
    requires t in ReadySet(st, started) && (sc.current.Some? ==> t != sc.Running(0))
    ensures sc.current.Some? ==> sc.Running(0) < |meta|
    ensures var r := ElectSched(sc, meta, stillReady);
            r.current.Some? && Rank(r, t) <= Rank(sc, t) - if sc.current.Some? then 1 else 0
  {
    AccountFor(sc, size, meta, st, started);
    ElectSchedInv(sc, size, meta, st, started, stillReady);
    RankElect(sc, size, meta, |meta| - 1, ReadySet(st, started), BlockedRunner(sc, st), stillReady, t);
  }

  lemma MidShape(sc: Sched, size: nat, meta: seq<Meta>, st: seq<JobState>, started: seq<bool>)
    requires SchedInv(sc, size, meta, st, started)
    ensures SchedTables(sc, size, meta, st, started) && QuantaButRunner(sc) && |st| == |meta|
  {
  }

  lemma ElectPatience(s: State, a: Action, t: nat)
    requires Inv(s) && EnvOk(s, a) && Legal(s, a) && !a.DoTick? && Elects(s, a)
    requires t in ReadySet(s.st, s.started) && t != Current(s)
    ensures var sc := Enqueue(s.sched, s.meta, Rouses(s, a));
            && (sc.current.Some? ==> sc.Running(0) < |s.meta|)
            && var r := ElectSched(sc, s.meta, a.DoYield?);
               r.current.Some? && Rank(r, t) <= Rank(sc, t) - if sc.current.Some? then 1 else 0
  {
    hide Inv, SchedInv, Legal, EnvOk, MetaOk, Enqueue, ReadySet, Rank;
    InvSched(s);
    var sc := Enqueue(s.sched, s.meta, Rouses(s, a));
    var st, started := StatesAfter(s, a), StartedAfter(s, a);
    MidSched(s, a);
    MidShape(sc, s.size, s.meta, st, started);
    StaysReady(s, a, t);
    RunnerReady(s);
    if Rouses(s, a).Some? {
      RousesBlocked(s, a);
    }
    RankElection(sc, s.size, s.meta, st, started, a.DoYield?, t);
  }

  ghost function Wakes(s: State, a: Action): nat
    requires WF(s) && Legal(s, a)
  {
    if a.DoTick? then DueCount(s.delays, s.size) + HitCount(s, s.size) else if Rouses(s, a).Some? then 1 else 0
  }

  /** Delayed jobs that end in this tick, among the first `k` cells. */
  function DueCount(delays: seq<DelayCell>, k: nat): nat
    requires k <= |delays|
  {
    if k == 0 then 0
    else DueCount(delays, k - 1) + if delays[k - 1].active && Expires(delays[k - 1].data.remaining) then 1 else 0
  }

  /** Alarm cell `i` is the first to hit its task, which no timeout of this tick wakes before. */
  predicate Strikes(s: State, i: nat)
    requires WF(s)
  {
    Hits(s, i) && var h := s.alarms[i].handler; !DueTo(s.delays, h, s.size) && !HitBy(s, h, i)
  }

  /** Waiting tasks that alarms make ready in this tick, by the first `k` cells. */
  function HitCount(s: State, k: nat): nat
    requires WF(s) && k <= s.size
  {
    if k == 0 then 0 else HitCount(s, k - 1) + if Strikes(s, k - 1) then 1 else 0
  }

  /** Each step either runs `t` or brings it closer by its election, minus two per wake-up. */
  lemma PatienceMove(s: State, a: Action, t: nat)
    requires Steady(s) && EnvOk(s, a) && Legal(s, a) && !a.DoTick? && !Trips(s, a)
    requires t in ReadySet(s.st, s.started) && t != Current(s)
    ensures var q := Step(s, a);
            && t in ReadySet(q.st, q.started)
            && Patience(q, t) <= Patience(s, t) + 2 * Wakes(s, a) - (if Elects(s, a) then 1 else 0)
            && (s.sched.current.Some? ==> q.sched.current.Some?)
            && (!Elects(s, a) ==> RunnerQuantum(q.sched) == RunnerQuantum(s.sched))
  {
    MovedStep(s, a);
    hide Step, Rank, ElectSched, Enqueue, Rouses;
    StaysReady(s, a, t);
    RankEnqueue(s, a, t);
    MidSched(s, a);
    if Elects(s, a) {
      ElectPatience(s, a, t);
    }
  }

  // ---- The tick ------------------------------------------------------------------------------------------

  /** The running job uses up its quantum in this tick. */
  predicate Spent(s: State) {
    s.sched.current.Some? && RunnerQuantum(s.sched) == 1
  }

  lemma BurnRank(sc: Sched, size: nat, meta: seq<Meta>, st: seq<JobState>, started: seq<bool>, t: nat)
    requires SchedInv(sc, size, meta, st, started) && sc.current.Some?
    ensures Rank(BurnQuantum(sc), t) == Rank(sc, t)
    ensures RunnerQuantum(BurnQuantum(sc)) == RunnerQuantum(sc) - 1
  {
    var a, i := sc.Active(), sc.current.value;
    var c := a.cells[i];
    CellUpdate(a.cells, i, c.(data := c.data.(quantum := Dec32(c.data.quantum))));
    CountHolds(a.cells, t);
    CountHolds(BurnQuantum(sc).Active().cells, t);
  }

  lemma RefreshIs(s: State)
    requires Inv(s) && s.sched.current.Some?
    ensures var b := BurnQuantum(s.sched);
            && b.current.Some? && b.Shaped(s.size) && b.Running(0) == s.sched.Running(0) && b.Running(0) < s.N()
            && Refresh(s).sched == if Spent(s) then ElectSched(b, s.meta, true) else b
  {
    BurnKeeps(s.sched, s.size, s.meta, s.st, s.started);
    BurnCounts(s.sched, s.size, s.meta, s.Users());
    RunnerReady(s);
    ElectSchedInv(BurnQuantum(s.sched), s.size, s.meta, s.st, s.started, true);
  }

  lemma RefreshPatience(s: State, t: nat)
    requires Inv(s) && t in ReadySet(s.st, s.started) && t != Current(s)
    ensures var r := Refresh(s);
            && Patience(r, t) <= Patience(s, t) - (if Spent(s) then 1 else 0)
            && (!Spent(s) ==> RunnerQuantum(r.sched) == if s.sched.current.Some? then RunnerQuantum(s.sched) - 1 else 0)
            && (s.sched.current.Some? ==> r.sched.current.Some?)
  {
    if s.sched.current.Some? {
      RefreshIs(s);
      hide Refresh, ElectSched, Rank, BurnQuantum;
      RunnerReady(s);
      BurnKeeps(s.sched, s.size, s.meta, s.st, s.started);
      BurnRank(s.sched, s.size, s.meta, s.st, s.started, t);
      if Spent(s) {
        RankElection(BurnQuantum(s.sched), s.size, s.meta, s.st, s.started, true, t);
      }
    }
  }

  lemma DueRunner(p: State, i: nat)
    requires Inv(p) && i < p.size && p.delays[i].active && Expires(p.delays[i].data.remaining) && !Jams(p, i)
    ensures p.st[p.delays[i].handler] != Ready && p.delays[i].handler < p.N()
  {
  }

  lemma TickJobPatience(p: State, i: nat, t: nat)
    requires Inv(p) && i < p.size && t in ReadySet(p.st, p.started) && !Jams(p, i)
    ensures var q := TickJob(p, i);
            var due := p.delays[i].active && Expires(p.delays[i].data.remaining);
            && t in ReadySet(q.st, q.started)
            && Patience(q, t) <= Patience(p, t) + (if due then 2 else 0)
            && RunnerQuantum(q.sched) == RunnerQuantum(p.sched) && q.sched.current == p.sched.current
            && (forall j :: 0 <= j < p.size && j != i ==> q.delays[j] == p.delays[j])
  {
    hide Inv, TickJob, SchedTables, Quanta, Dormant, MetaOk, Jams;
    InvSched(p);
    TickJobEffect(p, i);
    RunnerReady(p);
    var h := p.delays[i].handler;
    if p.delays[i].active && Expires(p.delays[i].data.remaining) {
      DueRunner(p, i);
      ActiveRoom(p.sched, p.size, p.meta, p.st, p.started);
      RankInsert(p.sched, p.size, p.meta, p.st, p.started, h, t);
      ReadyUp(p.sched, p.size, p.meta, p.st, p.started, h);
    }
  }

  /** Where `t` stands after the first `i` delayed cells of a tick. */
  ghost predicate Ahead(r: State, p: State, i: nat, t: nat) {
    && p.size == r.size && |p.delays| == |r.delays| && i <= |r.delays|
    && t in ReadySet(p.st, p.started) && p.sched.current == r.sched.current
    && RunnerQuantum(p.sched) == RunnerQuantum(r.sched)
    && Patience(p, t) <= Patience(r, t) + 2 * DueCount(r.delays, i)
    && (forall j :: i <= j < |r.delays| ==> p.delays[j] == r.delays[j])
  }

  ghost predicate SafelyAhead(r: State, p: State, i: nat, t: nat) {
    Inv(p) && Ahead(r, p, i, t) && WF(r) && i <= r.size && Ticked(r, p, i)
  }

  lemma AheadNone(r: State, t: nat)
    requires Inv(r) && t in ReadySet(r.st, r.started)
    ensures SafelyAhead(r, r, 0, t)
  {
    TickedNone(r, r);
  }

  lemma AheadParts(r: State, p: State, i: nat, t: nat)
    requires SafelyAhead(r, p, i, t)
    ensures Inv(p) && Ahead(r, p, i, t)
  {
  }

  lemma AheadStep(r: State, p: State, i: nat, t: nat)
    requires Inv(r) && WF(p) && i < r.size == p.size && SafelyAhead(r, p, i, t) && !Jams(r, i)
    ensures SafelyAhead(r, TickJob(p, i), i + 1, t)
  {
    JamsTicked(r, p, i);
    hide TickJob, Ticked, Jams;
    TickJobPatience(p, i, t);
    TickJobKeeps(p, i);
    TickJobTicked(r, p, i);
    hide Patience;
  }

  lemma TickJobsPatience(r: State, t: nat)
    requires Inv(r) && t in ReadySet(r.st, r.started) && !Jammed(r)
    ensures Ahead(r, TickJobs(r, r.size), r.size, t)
  {
    hide TickJob, TickJobs, WF, Inv, Ahead, SafelyAhead, Jams, ReadySet;
    InvShape(r);
    AheadNone(r, t);
    var good := (p: State, i: nat) => SafelyAhead(r, p, i, t);
    forall p, i: nat | WF(p) && p.size == r.size && i < r.size && good(p, i) ensures good(TickJob(p, i), i + 1) {
      AheadStep(r, p, i, t);
    }
    TickJobsInduct(r, r.size, good);
    AheadParts(r, TickJobs(r, r.size), r.size, t);
  }

  // ---- Alarms that hit ------------------------------------------------------------------------------------

  lemma TickAlarmPatience(p: State, i: nat, t: nat)
    requires Inv(p) && i < p.size && t in ReadySet(p.st, p.started)
    ensures var q := TickAlarm(p, i);
            && t in ReadySet(q.st, q.started)
            && Patience(q, t) <= Patience(p, t) + (if Hits(p, i) then 2 else 0)
            && RunnerQuantum(q.sched) == RunnerQuantum(p.sched) && q.sched.current == p.sched.current
  {
    hide Inv, TickAlarm, SchedTables, Quanta, Dormant, MetaOk;
    InvSched(p);
    if Hits(p, i) {
      TickAlarmHit(p, i);
      RunnerReady(p);
      var h := p.alarms[i].handler;
      ActiveRoom(p.sched, p.size, p.meta, p.st, p.started);
      RankInsert(p.sched, p.size, p.meta, p.st, p.started, h, t);
      ReadyUp(p.sched, p.size, p.meta, p.st, p.started, h);
    } else {
      TickAlarmEffect(p, i);
    }
  }

  /** A cell hits in its turn exactly when it strikes. */
  lemma StrikesInTurn(s: State, p: State, i: nat)
    requires Inv(s) && !Jammed(s) && i < s.size && WF(p) && Rung(Halfway(s), p, i)
    ensures i < p.size && (Hits(p, i) <==> Strikes(s, i))
  {
    hide Inv, Halfway, Jammed, Hits, DueTo;
    InvShape(s);
    HalfwayAlarms(s);
    HitsInTurn(Halfway(s), p, i);
    HitsHalfway(s, i);
    var h := s.alarms[i].handler;
    forall j | 0 <= j < i ensures Hits(Halfway(s), j) <==> Hits(s, j) && !DueTo(s.delays, s.alarms[j].handler, s.size) {
      HitsHalfway(s, j);
    }
  }

  /** Where `t` stands after the first `i` alarm cells of the tick. */
  ghost predicate Chimed(s: State, p: State, i: nat, t: nat)
    requires WF(s)
  {
    var h := Halfway(s);
    && RungSafely(h, p, i) && i <= s.size
    && t in ReadySet(p.st, p.started) && p.sched.current == h.sched.current
    && RunnerQuantum(p.sched) == RunnerQuantum(h.sched)
    && Patience(p, t) <= Patience(h, t) + 2 * HitCount(s, i)
  }

  lemma ChimedNone(s: State, t: nat)
    requires Inv(s) && !Jammed(s) && t in ReadySet(Halfway(s).st, Halfway(s).started)
    ensures Chimed(s, Halfway(s), 0, t)
  {
    hide Halfway, Jammed;
    HalfwayKeeps(s);
    RungSafelyNone(Halfway(s));
  }

  lemma ChimedStep(s: State, p: State, i: nat, t: nat)
    requires Inv(s) && !Jammed(s) && i < s.size && p.size == s.size && Chimed(s, p, i, t)
    ensures Chimed(s, TickAlarm(p, i), i + 1, t)
  {
    hide Inv, Halfway, Jammed, RungSafely, TickAlarm, Strikes, Hits, Rung, Patience, ReadySet;
    InvShape(s);
    HalfwayKeeps(s);
    RungSafelyParts(Halfway(s), p, i);
    InvShape(p);
    StrikesInTurn(s, p, i);
    TickAlarmPatience(p, i, t);
    RungSafelyStep(Halfway(s), p, i);
  }

  lemma ChimedParts(s: State, p: State, i: nat, t: nat)
    requires WF(s) && Chimed(s, p, i, t)
    ensures var h := Halfway(s);
            && i <= s.size && t in ReadySet(p.st, p.started) && p.sched.current == h.sched.current
            && RunnerQuantum(p.sched) == RunnerQuantum(h.sched)
            && Patience(p, t) <= Patience(h, t) + 2 * HitCount(s, i)
  {
  }

  lemma TickAlarmsPatience(s: State, t: nat)
    requires Inv(s) && !Jammed(s) && t in ReadySet(Halfway(s).st, Halfway(s).started)
    ensures var h, q := Halfway(s), Tick(s);
            && t in ReadySet(q.st, q.started) && q.sched.current == h.sched.current
            && RunnerQuantum(q.sched) == RunnerQuantum(h.sched)
            && Patience(q, t) <= Patience(h, t) + 2 * HitCount(s, s.size)
  {
    hide Inv, WF, Jammed, Chimed, TickAlarm, TickAlarms, HitCount, ReadySet, RunnerQuantum, Patience, Refresh, TickJobs;
    InvShape(s);
    var h := Halfway(s);
    ChimedNone(s, t);
    var good := (p: State, i: nat) => Chimed(s, p, i, t);
    forall p, i: nat | WF(p) && p.size == h.size && i < s.size && good(p, i) ensures good(TickAlarm(p, i), i + 1) {
      ChimedStep(s, p, i, t);
    }
    TickAlarmsInduct(h, s.size, good);
    ChimedParts(s, Tick(s), s.size, t);
  }

  lemma SameJams(s: State, r: State)
    requires WF(s) && WF(r) && r.delays == s.delays && r.st == s.st && r.ret == s.ret && r.size == s.size
    ensures Jammed(r) <==> Jammed(s)
  {
    assert forall i :: 0 <= i < s.size ==> (Jams(r, i) <==> Jams(s, i));
  }

  lemma RefreshFirst(s: State) returns (r: State)
    requires Inv(s)
    ensures r == Refresh(Clock(s)) && Inv(r) && r.st == s.st && r.started == s.started && r.delays == s.delays
    ensures r.size == s.size && r.sched == Refresh(s).sched && (Jammed(r) <==> Jammed(s))
  {
    r := Refresh(Clock(s));
    ClockUnseen(s);
    hide Refresh, Inv;
    InvShape(s);
    RefreshTicked(s);
    RefreshKeeps(s);
    SameJams(s, r);
  }

  lemma PatienceTick(s: State, t: nat)
    requires Inv(s) && !Jammed(s) && t in ReadySet(s.st, s.started) && t != Current(s)
    ensures var q := Tick(s);
            && t in ReadySet(q.st, q.started)
            && Patience(q, t) <= Patience(s, t) + 2 * Wakes(s, DoTick) - (if Spent(s) then 1 else 0)
            && (s.sched.current.Some? ==> q.sched.current.Some?)
            && (!Spent(s) && s.sched.current.Some? ==> RunnerQuantum(q.sched) == RunnerQuantum(s.sched) - 1)
  {
    hide Inv, Refresh, TickJobs, TickAlarms, Rank, ReadySet, Jammed;
    RefreshPatience(s, t);
    var r := RefreshFirst(s);
    TickJobsPatience(r, t);
    TickAlarmsPatience(s, t);
  }

  // ---- Runs ------------------------------------------------------------------------------------------------

  ghost function Elections(s: State, a: Action): (e: nat)
    requires WF(s)
    ensures e <= 1
  {
    if (if a.DoTick? then Spent(s) else Elects(s, a)) then 1 else 0
  }

  /** The hand-off at the end of the tick does not concern the scheduler. */
  lemma TickStep(s: State)
    requires Steady(s) && !Trips(s, DoTick)
    ensures var q := Step(s, DoTick); q.sched == Tick(s).sched && q.st == Tick(s).st && q.started == Tick(s).started
  {
    hide Tick, HandOff, Inv, Trips;
    InvShape(s);
    StepKeeps(s, DoTick);
    HandOffFrame(Tick(s));
  }

  /** One step of a run: `t` stays ready, one election closer per election, at most two further
      away per wake-up. */
  lemma PatienceStep(s: State, a: Action, t: nat)
    requires Steady(s) && EnvOk(s, a) && Legal(s, a) && !Trips(s, a)
    requires t in ReadySet(s.st, s.started) && t != Current(s)
    ensures var q := Step(s, a);
            && t in ReadySet(q.st, q.started)
            && Patience(q, t) <= Patience(s, t) + 2 * Wakes(s, a) - Elections(s, a)
            && (s.sched.current.Some? ==> q.sched.current.Some?)
            && (s.sched.current.Some? && Elections(s, a) == 0 ==>
                RunnerQuantum(q.sched) == RunnerQuantum(s.sched) - if a.DoTick? then 1 else 0)
  {
    hide Inv, Step, Tick, ReadySet, Jammed;
    if a.DoTick? {
      PatienceTick(s, t);
      TickStep(s);
    } else {
      PatienceMove(s, a, t);
    }
  }

  lemma PatiencePositive(s: State, t: nat)
    requires Inv(s) && t in ReadySet(s.st, s.started)
    ensures 1 <= Patience(s, t) <= 2 * s.sched.Active().num + s.sched.Backed().num
  {
    var a, b := s.sched.Active().cells, s.sched.Backed().cells;
    CountHolds(a, t);
    CountHolds(b, t);
    assert Copies(s.sched, t) == 1;
    SizeBounds(a);
    SizeBounds(b);
  }

  /** Elections in the first `k` steps of a run. */
  ghost function ElectionsIn(trace: seq<State>, acts: seq<Action>, k: nat): nat
    requires IsRun(trace, acts) && k <= |acts|
  {
    if k == 0 then 0
    else
      assert Next(trace[k - 1], acts[k - 1], trace[k - 1 + 1]);
      ElectionsIn(trace, acts, k - 1) + Elections(trace[k - 1], acts[k - 1])
  }

  ghost function WakesIn(trace: seq<State>, acts: seq<Action>, k: nat): nat
    requires IsRun(trace, acts) && k <= |acts|
  {
    if k == 0 then 0
    else
      assert Next(trace[k - 1], acts[k - 1], trace[k - 1 + 1]);
      WakesIn(trace, acts, k - 1) + Wakes(trace[k - 1], acts[k - 1])
  }

  ghost predicate NeverRuns(trace: seq<State>, t: nat, k: nat)
    requires k <= |trace|
  {
    forall i :: 0 <= i < k ==> WF(trace[i]) && Current(trace[i]) != t
  }

  lemma {:induction false} PatienceRun(trace: seq<State>, acts: seq<Action>, t: nat, k: nat)
    requires IsRun(trace, acts) && Steady(trace[0]) && k <= |acts| && !trace[k].panicked
    requires t in ReadySet(trace[0].st, trace[0].started) && NeverRuns(trace, t, k)
    ensures Steady(trace[k]) && t in ReadySet(trace[k].st, trace[k].started) && trace[k].meta == trace[0].meta
    ensures Patience(trace[k], t) <=
            Patience(trace[0], t) + 2 * WakesIn(trace, acts, k) - ElectionsIn(trace, acts, k)
  {
    hide Step, Inv, Clear, Patience, Wakes, Elections, Legal, EnvOk, ReadySet, Trips;
    if k > 0 {
      RunStep(trace, acts, k - 1);
      PatienceRun(trace, acts, t, k - 1);
      PatienceStep(trace[k - 1], acts[k - 1], t);
    }
  }

  /** Bounded waiting in elections: while a ready task is kept waiting, the elections number fewer
      than twice the active jobs plus the backed jobs, plus two per wake-up. */
  lemma BoundedElections(trace: seq<State>, acts: seq<Action>, t: nat, k: nat)
    requires IsRun(trace, acts) && Steady(trace[0]) && k <= |acts| && !trace[k].panicked
    requires t in ReadySet(trace[0].st, trace[0].started) && NeverRuns(trace, t, k)
    ensures var sc := trace[0].sched;
            ElectionsIn(trace, acts, k) < 2 * sc.Active().num + sc.Backed().num + 2 * WakesIn(trace, acts, k)
  {
    hide IsRun, Inv, Clear, Patience, WakesIn, ElectionsIn, ReadySet, NeverRuns;
    RunShape(trace, acts);
    PatienceRun(trace, acts, t, k);
    PatiencePositive(trace[0], t);
    PatiencePositive(trace[k], t);
  }

  // ---- Held tasks run the kernel into a panic ----------------------------------------------------------------

  /** A held task never runs before the panic. */
  lemma {:induction false} HeldNeverRuns(trace: seq<State>, acts: seq<Action>, t: nat, k: nat)
    requires IsRun(trace, acts) && Steady(trace[0]) && k <= |acts| && !trace[k].panicked && Held(trace[0], t)
    ensures Held(trace[k], t) && Steady(trace[k]) && NeverRuns(trace, t, k)
  {
    hide Next, Inv, Trips, Held;
    RunShape(trace, acts);
    if k > 0 {
      RunStep(trace, acts, k - 1);
      HeldNeverRuns(trace, acts, t, k - 1);
      HeldRange(trace[k - 1], t);
      NextHeld(trace[k - 1], acts[k - 1], trace[k], t);
    }
  }

  lemma HeldRange(s: State, t: nat)
    requires Held(s, t)
    ensures t < |s.st|
  {
  }

  /** Once an alarm has hit a waiting task, the kernel panics within the same number of elections. */
  lemma HeldPanics(trace: seq<State>, acts: seq<Action>, t: nat, k: nat)
    requires IsRun(trace, acts) && Steady(trace[0]) && k <= |acts| && Held(trace[0], t)
    requires t in ReadySet(trace[0].st, trace[0].started)
    requires var sc := trace[0].sched;
             ElectionsIn(trace, acts, k) >= 2 * sc.Active().num + sc.Backed().num + 2 * WakesIn(trace, acts, k)
    ensures trace[k].panicked
  {
    hide IsRun, Inv, Clear, WakesIn, ElectionsIn, ReadySet, NeverRuns, Held;
    RunShape(trace, acts);
    if !trace[k].panicked {
      HeldNeverRuns(trace, acts, t, k);
      BoundedElections(trace, acts, t, k);
    }
  }

  // ---- Ticks -------------------------------------------------------------------------------------------------

  ghost predicate QuantaAtMost(meta: seq<Meta>, most: nat) {
    forall t :: 0 <= t < |meta| ==> meta[t].quantum <= most
  }

  /** `n` quanta of `most` ticks. */
  function Span(n: int, most: nat): int {
    n * most
  }

  /** Ticks `t` waits for at most when quanta are at most `most`. */
  function Gauge(s: State, t: nat, most: nat): int {
    Span(Patience(s, t) - 1, most) + RunnerQuantum(s.sched)
  }

  lemma QuantumBounds(s: State, most: nat)
    requires Inv(s) && s.sched.current.Some? && QuantaAtMost(s.meta, most)
    ensures 1 <= RunnerQuantum(s.sched) <= most
  {
  }

  lemma SpanAdd(a: int, b: int, most: nat)
    ensures Span(a + b, most) == Span(a, most) + Span(b, most)
    ensures Span(a - 1, most) == Span(a, most) - most
    ensures a <= b ==> Span(a, most) <= Span(b, most)
  {
  }

  lemma GaugeArithmetic(p: int, p': int, q: int, q': int, w: nat, e: nat, tick: nat, most: nat)
    requires p' <= p + 2 * w - e && e <= 1 && tick <= 1 && 1 <= q <= most && 1 <= q' <= most
    requires e == 0 ==> q' == q - tick
    ensures Span(p' - 1, most) + q' <= Span(p - 1, most) + q + Span(2 * w, most) - tick
  {
    hide Span;
    SpanAdd(p' - 1, p + 2 * w - e - 1, most);
    SpanAdd(p - 1, 2 * w, most);
    SpanAdd(p - 1 + 2 * w, 0, most);
  }

  lemma RunnerBounds(s: State, q: State, most: nat)
    requires Inv(s) && Inv(q) && q.meta == s.meta && QuantaAtMost(s.meta, most)
    ensures s.sched.current.Some? ==> 1 <= RunnerQuantum(s.sched) <= most
    ensures q.sched.current.Some? ==> 1 <= RunnerQuantum(q.sched) <= most
  {
    hide Inv, RunnerQuantum, QuantaAtMost;
    if s.sched.current.Some? {
      QuantumBounds(s, most);
    }
    if q.sched.current.Some? {
      QuantumBounds(q, most);
    }
  }

  lemma StepBounds(s: State, a: Action, most: nat) returns (q: State)
    requires Steady(s) && EnvOk(s, a) && Legal(s, a) && !Trips(s, a) && QuantaAtMost(s.meta, most)
    ensures WF(s) && q == Step(s, a) && q.meta == s.meta
    ensures s.sched.current.Some? ==> 1 <= RunnerQuantum(s.sched) <= most
    ensures q.sched.current.Some? ==> 1 <= RunnerQuantum(q.sched) <= most
  {
    hide Step, Inv, Clear, Legal, EnvOk, RunnerQuantum, WF, QuantaAtMost, Trips;
    InvShape(s);
    q := Step(s, a);
    StepKeeps(s, a);
    RunnerBounds(s, q, most);
  }

  lemma GaugeStep(s: State, a: Action, t: nat, most: nat)
    requires Steady(s) && EnvOk(s, a) && Legal(s, a) && !Trips(s, a)
    requires s.sched.current.Some? && QuantaAtMost(s.meta, most)
    requires t in ReadySet(s.st, s.started) && t != Current(s)
    ensures var q := Step(s, a);
            && q.sched.current.Some? && q.meta == s.meta
            && Gauge(q, t, most) <= Gauge(s, t, most) + Span(2 * Wakes(s, a), most) - if a.DoTick? then 1 else 0
  {
    hide Step, Inv, Clear, ReadySet, Patience, Wakes, Elections, Legal, EnvOk, RunnerQuantum, Span, WF;
    hide QuantaAtMost, Trips;
    InvShape(s);
    var q := StepBounds(s, a, most);
    PatienceStep(s, a, t);
    GaugeArithmetic(Patience(s, t), Patience(q, t), RunnerQuantum(s.sched), RunnerQuantum(q.sched),
                    Wakes(s, a), Elections(s, a), if a.DoTick? then 1 else 0, most);
  }

  lemma NeverBefore(trace: seq<State>, t: nat, k: nat)
    requires 0 < k <= |trace| && NeverRuns(trace, t, k)
    ensures NeverRuns(trace, t, k - 1) && WF(trace[k - 1]) && Current(trace[k - 1]) != t
  {
  }

  lemma {:induction false} GaugeRun(trace: seq<State>, acts: seq<Action>, t: nat, from: nat, k: nat, most: nat)
    requires IsRun(trace, acts) && Steady(trace[0]) && from <= k <= |acts| && !trace[k].panicked
    requires trace[from].sched.current.Some? && QuantaAtMost(trace[0].meta, most)
    requires t in ReadySet(trace[0].st, trace[0].started) && NeverRuns(trace, t, k)
    ensures trace[k].sched.current.Some? && TicksIn(acts, from) <= TicksIn(acts, k)
    ensures Gauge(trace[k], t, most) <=
            Gauge(trace[from], t, most) + Span(2 * WakesIn(trace, acts, k), most)
              - Span(2 * WakesIn(trace, acts, from), most)
              - (TicksIn(acts, k) - TicksIn(acts, from))
    decreases k
  {
    hide Step, Inv, Clear, Gauge, Patience, Wakes, Legal, EnvOk, ReadySet, Span, Trips, QuantaAtMost, IsRun, NeverRuns;
    RunShape(trace, acts);
    if k > from {
      RunStep(trace, acts, k - 1);
      NeverBefore(trace, t, k);
      GaugeRun(trace, acts, t, from, k - 1, most);
      PatienceRun(trace, acts, t, k - 1);
      hide WF;
      GaugeStep(trace[k - 1], acts[k - 1], t, most);
      SpanAdd(2 * WakesIn(trace, acts, k - 1), 2 * Wakes(trace[k - 1], acts[k - 1]), most);
    }
  }

  lemma GaugeBounds(s: State, t: nat, most: nat)
    requires Inv(s) && t in ReadySet(s.st, s.started) && s.sched.current.Some? && QuantaAtMost(s.meta, most)
    ensures 1 <= Gauge(s, t, most) <= Span(Patience(s, t), most)
  {
    PatiencePositive(s, t);
    QuantumBounds(s, most);
    hide Span, Inv;
    SpanAdd(1, Patience(s, t), most);
    SpanAdd(0, 0, most);
    SpanAdd(Patience(s, t), 0, most);
  }

  /** Bounded waiting in ticks: with quanta of at most `most` ticks, a ready task is kept waiting,
      from the first point on at which a job has the core, for fewer than
      (2 * active + backed) * most ticks, plus 2 * most per wake-up. */
  lemma BoundedTicks(trace: seq<State>, acts: seq<Action>, t: nat, from: nat, k: nat, most: nat)
    requires IsRun(trace, acts) && Steady(trace[0]) && from <= k <= |acts| && !trace[k].panicked
    requires trace[from].sched.current.Some? && QuantaAtMost(trace[0].meta, most)
    requires t in ReadySet(trace[0].st, trace[0].started) && NeverRuns(trace, t, k)
    ensures var sc := trace[0].sched;
            TicksIn(acts, k) - TicksIn(acts, from) <
              (2 * sc.Active().num + sc.Backed().num) * most + 2 * WakesIn(trace, acts, k) * most
  {
    hide IsRun, Inv, Clear, ReadySet, Gauge, QuantaAtMost, WakesIn, TicksIn, ElectionsIn, Patience, Span;
    RunShape(trace, acts);
    EarlierCalm(trace, acts, from, k);
    GaugeRun(trace, acts, t, from, k, most);
    PatienceRun(trace, acts, t, k);
    PatienceRun(trace, acts, t, from);
    GaugeBounds(trace[from], t, most);
    GaugeBounds(trace[k], t, most);
    PatiencePositive(trace[0], t);
    var sc, w, w' := trace[0].sched, WakesIn(trace, acts, from), WakesIn(trace, acts, k);
    var bound := 2 * sc.Active().num + sc.Backed().num;
    SpanAdd(Patience(trace[from], t), bound + 2 * w, most);
    SpanAdd(bound, 2 * w, most);
    SpanIs(bound, most);
    SpanIs(2 * w', most);
  }

  lemma SpanIs(n: int, most: nat)
    ensures Span(n, most) == n * most
  {
  }

  // ---- Idle ---------------------------------------------------------------------------------------------------

  /** With a task ready, idle's run is ended by its own yield and by nothing else: ticks do not
      count against it. */
  lemma IdleEnds(s: State, a: Action, t: nat)
    requires Steady(s) && EnvOk(s, a) && Legal(s, a) && !Trips(s, a)
    requires s.sched.current.None? && t in ReadySet(s.st, s.started)
    ensures Step(s, a).sched.current.Some? <==> a.DoYield?
    ensures t in ReadySet(Step(s, a).st, Step(s, a).started)
  {
    IdleRunner(s, t);
    hide Inv, Step, ReadySet, Trips;
    PatienceStep(s, a, t);
    if a.DoTick? {
      IdleTick(s);
    } else {
      IdleMove(s, a, t);
    }
  }

  lemma IdleRunner(s: State, t: nat)
    requires Inv(s) && s.sched.current.None? && t in ReadySet(s.st, s.started)
    ensures t != Current(s)
  {
  }

  lemma IdleTick(s: State)
    requires Steady(s) && !Trips(s, DoTick) && s.sched.current.None?
    ensures Step(s, DoTick).sched.current.None?
  {
    hide Inv, Refresh, TickJobs, TickAlarms, Jams, Step;
    InvShape(s);
    IdleRefresh(s);
    TickStep(s);
    IdleLoops(s);
  }

  lemma IdleRefresh(s: State)
    requires WF(s) && s.sched.current.None?
    ensures Refresh(Clock(s)).sched == s.sched
  {
  }

  lemma IdleLoops(s: State)
    requires Inv(s) && !Jammed(s) && Refresh(Clock(s)).sched == s.sched && s.sched.current.None?
    ensures Tick(s).sched.current.None?
  {
    hide Inv, Refresh, TickJob, TickAlarm, Jams, TickJobs, TickAlarms;
    InvShape(s);
    var r := RefreshFirst(s);
    var jobs := (p: State, i: nat) => p.sched.current.None?;
    forall p, i: nat | WF(p) && p.size == r.size && i < s.size && jobs(p, i) ensures jobs(TickJob(p, i), i + 1) {
      IdleJob(p, i);
    }
    TickJobsInduct(r, s.size, jobs);
    forall p, i: nat | WF(p) && p.size == r.size && i < s.size && jobs(p, i) ensures jobs(TickAlarm(p, i), i + 1) {
      IdleAlarm(p, i);
    }
    TickAlarmsInduct(TickJobs(r, s.size), s.size, jobs);
  }

  lemma IdleJob(p: State, i: nat)
    requires WF(p) && i < p.size && p.sched.current.None?
    ensures TickJob(p, i).sched.current.None?
  {
  }

  lemma IdleAlarm(p: State, i: nat)
    requires WF(p) && i < p.size && p.sched.current.None?
    ensures TickAlarm(p, i).sched.current.None?
  {
  }

  lemma IdleMove(s: State, a: Action, t: nat)
    requires Steady(s) && EnvOk(s, a) && Legal(s, a) && !Trips(s, a) && !a.DoTick?
    requires s.sched.current.None? && t in ReadySet(s.st, s.started)
    ensures Step(s, a).sched.current.Some? <==> a.DoYield?
  {
    MovedStep(s, a);
    hide Step;
    IdleRunner(s, t);
    if a.DoYield? {
      ElectPatience(s, a, t);
    }
  }

  /** Until idle yields it keeps the core, through any number of ticks, with tasks ready. */
  lemma {:induction false} IdleUntilYield(trace: seq<State>, acts: seq<Action>, t: nat, k: nat)
    requires IsRun(trace, acts) && Steady(trace[0]) && k <= |acts| && !trace[k].panicked
    requires trace[0].sched.current.None? && t in ReadySet(trace[0].st, trace[0].started)
    requires forall i :: 0 <= i < k ==> !acts[i].DoYield?
    ensures trace[k].sched.current.None? && t in ReadySet(trace[k].st, trace[k].started)
  {
    hide Inv, Clear, Step, EnvOk, Legal, ReadySet, Trips;
    if k > 0 {
      RunStep(trace, acts, k - 1);
      IdleUntilYield(trace, acts, t, k - 1);
      IdleEnds(trace[k - 1], acts[k - 1], t);
    }
  }

  /** The bound on ticks holds from idle's first yield on, and only from there. */
  lemma TicksFromYield(trace: seq<State>, acts: seq<Action>, t: nat, j: nat, k: nat, most: nat)
    requires IsRun(trace, acts) && Steady(trace[0]) && j < k <= |acts| && !trace[k].panicked
    requires trace[0].sched.current.None? && t in ReadySet(trace[0].st, trace[0].started)
    requires acts[j].DoYield? && forall i :: 0 <= i < j ==> !acts[i].DoYield?
    requires QuantaAtMost(trace[0].meta, most) && NeverRuns(trace, t, k)
    ensures var sc := trace[0].sched;
            TicksIn(acts, k) - TicksIn(acts, j + 1) <
              (2 * sc.Active().num + sc.Backed().num) * most + 2 * WakesIn(trace, acts, k) * most
  {
    hide Inv, Clear, Step, EnvOk, Legal, ReadySet, Trips, QuantaAtMost, WakesIn, TicksIn;
    EarlierCalm(trace, acts, j + 1, k);
    RunStep(trace, acts, j);
    IdleUntilYield(trace, acts, t, j);
    IdleEnds(trace[j], acts[j], t);
    BoundedTicks(trace, acts, t, j + 1, k, most);
  }
}
