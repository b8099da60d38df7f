/** What every step of the kernel keeps.

`Inv` collects the protocol invariants of a state between two kernel entries. `Core` is the
part about scheduling, delays and return values; it also holds inside a gate, after the
running task has been marked blocked and before the next election. Each invariant is a
predicate on the columns it speaks about, so that a step that leaves those columns alone
keeps it by congruence.
*/
module Invariants {
  import opened Slots
  import opened Rings
  import opened Exchange
  import opened IpcGraph
  import opened Rrmq
  import opened KernelSpec

  ghost predicate MetaOk(meta: seq<Meta>) {
    && |meta| > 0
    && (forall t :: 0 <= t < |meta| - 1 ==> 1 <= meta[t].quantum)
    && (forall t :: 0 <= t < |meta| ==> meta[t].handle < 0x1_0000_0000)
    && (forall t, u :: 0 <= t < u < |meta| ==> meta[t].handle != meta[u].handle)
  }

  /** The started user tasks in state READY. */
  ghost function ReadySet(st: seq<JobState>, started: seq<bool>): set<nat> {
    set t | 0 <= t < |st| - 1 && t < |started| && started[t] && st[t] == Ready
  }

  /** The running task, when it has just given up being ready. */
  ghost function BlockedRunner(sc: Sched, st: seq<JobState>): Option<nat> {
    if sc.current.Some? && sc.current.value < |sc.Active().cells| && sc.Running(0) < |st| && st[sc.Running(0)] != Ready
    then Some(sc.Running(0)) else None
  }

  /** Ready-job conservation and the jobset representation. */
  ghost predicate SchedTables(sc: Sched, size: nat, meta: seq<Meta>, st: seq<JobState>, started: seq<bool>) {
    && 1 <= |meta| == |st| == |started| <= size
    && Tables(sc, size, meta, |meta| - 1)
    && Conserves(sc, ReadySet(st, started), BlockedRunner(sc, st))
  }

  ghost predicate SchedInv(sc: Sched, size: nat, meta: seq<Meta>, st: seq<JobState>, started: seq<bool>) {
    SchedTables(sc, size, meta, st, started) && Quanta(sc) && IdleAlone(sc)
  }

  /** While idle runs, no job sits in the backed jobset. */
  ghost predicate IdleAlone(sc: Sched) {
    sc.current.None? ==> sc.Backed().num == 0
  }

  /** A task the scheduler was never given sits in READY; idle is never given to it. */
  ghost predicate Dormant(st: seq<JobState>, started: seq<bool>) {
    && 1 <= |st| == |started| && !started[|st| - 1]
    && forall t :: 0 <= t < |st| && !started[t] ==> st[t] == Ready
  }

  /** A slot is in use exactly when its sender is blocked on its owner. */
  ghost predicate SlotInv(ipcs: seq<seq<nat>>, st: seq<JobState>, sentTo: seq<nat>) {
    && Square(ipcs) && |ipcs| == |st| == |sentTo|
    && (forall d, x :: 0 <= d < |st| && 0 <= x < |st| ==>
          (ipcs[d][x] != 0 <==> st[x] == IpcSendBlocked && sentTo[x] == d))
    && (forall d, x :: 0 <= d < |st| && 0 <= x < |st| ==> ipcs[d][x] <= MAX_PAYLOAD)
    && (forall x :: 0 <= x < |st| && st[x] == IpcSendBlocked ==> sentTo[x] < |st|)
  }

  ghost predicate GraphInv(ipcs: seq<seq<nat>>) {
    Square(ipcs) && Acyclic(ipcs)
  }

  ghost predicate SigInv(sigs: seq<seq<nat>>) {
    Square(sigs) && forall d, x :: 0 <= d < |sigs| && 0 <= x < |sigs| ==> sigs[d][x] <= SIGNAL_USR2
  }

  ghost predicate AlarmInv(alarms: seq<AlarmCell>) {
    forall i :: 0 <= i < |alarms| && alarms[i].active ==> alarms[i].data.sig == SIGNAL_ALARM
  }

  ghost predicate RowEmpty(rows: seq<seq<nat>>, t: nat) {
    t < |rows| && forall x :: 0 <= x < |rows| && x < |rows[t]| ==> rows[t][x] == 0
  }

  /** No event of a kind in the mask is pending for task `t`. */
  ghost predicate NothingPending(s: State, t: nat, mask: bv8)
    requires WF(s) && t < s.N()
  {
    && (Wants(mask, EVENT_SIGNAL) ==> RowEmpty(s.sigs, t))
    && (Wants(mask, EVENT_IRQ) ==> IsEmpty(s.ints[t]))
    && (Wants(mask, EVENT_DMA) ==> IsEmpty(s.dmas[t]))
    && (Wants(mask, EVENT_IPC) ==> RowEmpty(s.ipcs, t))
  }

  /** No lost wake-up. */
  ghost predicate WakeInv(s: State)
    requires WF(s)
  {
    forall t :: 0 <= t < s.N() && s.st[t] == WaitForEvent ==> NothingPending(s, t, s.mask[t])
  }

  /** A task that an alarm made ready while it waited: its gate's return value is still to come. */
  predicate IsHeld(j: JobState, r: Option<Status>) {
    j == Ready && r == Some(NonSense)
  }

  predicate Held(s: State, t: nat) {
    t < |s.st| && t < |s.ret| && IsHeld(s.st[t], s.ret[t])
  }

  /** Each task has at most one delayed cell, only while it waits or is held, and every sleeper
      has one. */
  ghost predicate DelayInv(delays: seq<DelayCell>, st: seq<JobState>, ret: seq<Option<Status>>) {
    && |st| == |ret|
    && (forall t :: Count(delays, t) <= 1)
    && (forall i :: 0 <= i < |delays| && delays[i].active ==>
          var h := delays[i].handler; h < |st| - 1 && (Waiting(st[h]) || IsHeld(st[h], ret[h])))
    && (forall t :: 0 <= t < |st| && (st[t] == Sleeping || st[t] == SleepingDeep) ==> Count(delays, t) == 1)
  }

  /** States entered by a gate that does not yet know its return value. */
  predicate Parked(j: JobState) {
    Waiting(j) || j == IpcSendBlocked || j == Aborting || j == Finished
  }

  /** A task parked in a gate holds NON_SENSE. */
  ghost predicate RetInv(st: seq<JobState>, ret: seq<Option<Status>>) {
    && |st| == |ret|
    && (forall t :: 0 <= t < |st| && Parked(st[t]) ==> ret[t] == Some(NonSense))
  }

  ghost predicate Core(s: State) {
    && WF(s) && !s.panicked && MetaOk(s.meta)
    && SchedInv(s.sched, s.size, s.meta, s.st, s.started) && Dormant(s.st, s.started)
    && DelayInv(s.delays, s.st, s.ret) && RetInv(s.st, s.ret)
  }

  ghost predicate Mail(s: State) {
    SlotInv(s.ipcs, s.st, s.sentTo) && GraphInv(s.ipcs) && SigInv(s.sigs) && AlarmInv(s.alarms)
  }

  ghost predicate Mid(s: State) {
    Core(s) && Mail(s) && WakeInv(s)
  }

  /** No job is running, or the running job is ready. */
  ghost predicate Settled(s: State) {
    BlockedRunner(s.sched, s.st) == None
  }

  /** What holds when a gate is done, before the handler hands over to the running task. */
  ghost predicate Inv(s: State) {
    Mid(s) && Settled(s)
  }

  /** The running task is not held. */
  ghost predicate Clear(s: State) {
    WF(s) && !Held(s, Current(s))
  }

  /** What every step keeps, or else panics. */
  ghost predicate Steady(s: State) {
    Inv(s) && Clear(s)
  }

  /** A ready task never holds NON_SENSE. */
  ghost predicate NoneHeld(s: State) {
    forall t :: 0 <= t < |s.st| ==> !Held(s, t)
  }

  /** What every step keeps as long as no alarm hits a waiting task. */
  ghost predicate Calm(s: State) {
    Steady(s) && NoneHeld(s)
  }

  lemma InvShape(s: State)
    requires Inv(s)
    ensures WF(s)
  {
  }

  lemma InvSched(s: State)
    requires Inv(s)
    ensures WF(s) && MetaOk(s.meta) && SchedInv(s.sched, s.size, s.meta, s.st, s.started) && Dormant(s.st, s.started)
    ensures BlockedRunner(s.sched, s.st) == None
  {
  }

  // ---- Scheduling ---------------------------------------------------------------------------------

  lemma RunnerKnown(sc: Sched, size: nat, meta: seq<Meta>, st: seq<JobState>, started: seq<bool>)
    requires SchedTables(sc, size, meta, st, started) && sc.current.Some?
    ensures sc.Running(0) < |st| - 1
    ensures st[sc.Running(0)] == Ready ==> sc.Running(0) in ReadySet(st, started)
  {
    var t := sc.Running(0);
    var a := sc.Active().cells;
    CountHolds(a, t);
    assert IsFor(a[sc.current.value], t);
    assert Copies(sc, t) >= 1;
  }

  lemma ReadySetGrows(st: seq<JobState>, started: seq<bool>, t: nat)
    requires Dormant(st, started) && t < |st| && st[t] != Ready
    ensures t < |st| - 1 && started[t] && t !in ReadySet(st, started)
    ensures ReadySet(st[t := Ready], started) == ReadySet(st, started) + {t}
  {
  }

  lemma BlockedOther(sc: Sched, st: seq<JobState>, t: nat)
    requires t < |st| && (sc.current.Some? ==> sc.current.value < |sc.Active().cells| && sc.Running(0) != t)
    ensures BlockedRunner(sc, st) != Some(t)
  {
  }

  lemma BlockedSame(sc: Sched, r: Sched, st: seq<JobState>, t: nat)
    requires t < |st| && r.current == sc.current && |r.Active().cells| == |sc.Active().cells|
    requires sc.current.Some? ==>
               sc.current.value < |sc.Active().cells| && sc.Running(0) != t && r.Running(0) == sc.Running(0)
    ensures BlockedRunner(r, st[t := Ready]) == BlockedRunner(sc, st)
  {
  }

  lemma TablesShape(sc: Sched, size: nat, meta: seq<Meta>)
    requires |meta| > 0 && Tables(sc, size, meta, |meta| - 1)
    ensures sc.Shaped(size)
  {
  }

  lemma ReadyQuanta(sc: Sched, meta: seq<Meta>, t: nat)
    requires Quanta(sc) && MetaOk(meta) && t < |meta| - 1 && |sc.Active().cells| > 0
    ensures Quanta(sc.WithActive(Insert(sc.Active(), t, meta[t])))
  {
    InsertQuanta(sc.Active(), t, meta[t]);
  }

  /** A blocked task turned ready enters the active jobset, whatever it was blocked on. */
  lemma ReadyUp(sc: Sched, size: nat, meta: seq<Meta>, st: seq<JobState>, started: seq<bool>, t: nat)
    requires SchedInv(sc, size, meta, st, started) && Dormant(st, started) && MetaOk(meta)
    requires t < |st| && st[t] != Ready && (sc.current.Some? ==> sc.Running(0) != t)
    ensures t < |st| - 1 && started[t] && t !in ReadySet(st, started)
    ensures ReadySet(st[t := Ready], started) == ReadySet(st, started) + {t}
    ensures !Holds(sc.Active().cells, t) && sc.Active().num <= size
    ensures var r := sc.WithActive(Insert(sc.Active(), t, meta[t]));
            && SchedInv(r, size, meta, st[t := Ready], started)
            && r.current == sc.current && r.Running(0) == sc.Running(0)
            && BlockedRunner(r, st[t := Ready]) == BlockedRunner(sc, st)
            && r.Active().num == sc.Active().num + 1 && r.Backed() == sc.Backed()
            && (sc.current.Some? ==> r.Active().cells[sc.current.value] == sc.Active().cells[sc.current.value])
  {
    hide Conserves, Tables, MetaOk, Quanta, Insert, Holds, Copies;
    TablesShape(sc, size, meta);
    var ready, blocked := ReadySet(st, started), BlockedRunner(sc, st);
    ReadySetGrows(st, started, t);
    BlockedOther(sc, st, t);
    BlockedNotReady(sc, st, started);
    hide ReadySet, BlockedRunner, Dormant;
    InsertKeeps(sc, size, meta, |meta| - 1, ready, blocked, t);
    ReadyQuanta(sc, meta, t);
    var r := sc.WithActive(Insert(sc.Active(), t, meta[t]));
    TablesShape(r, size, meta);
    BlockedSame(sc, r, st, t);
  }

  lemma BlockedNotReady(sc: Sched, st: seq<JobState>, started: seq<bool>)
    ensures var blocked := BlockedRunner(sc, st); blocked.Some? ==> blocked.value !in ReadySet(st, started)
  {
  }

  /** The same, as the kernel does it: mark the task ready, then schedule it. */
  lemma ScheduleReady(s: State, t: nat)
    requires WF(s) && MetaOk(s.meta) && SchedInv(s.sched, s.size, s.meta, s.st, s.started) && Dormant(s.st, s.started)
    requires t < s.N() && s.st[t] != Ready && (s.sched.current.Some? ==> Current(s) != t)
    ensures var q := Schedule(SetState(s, t, Ready), t);
            && q == s.(st := s.st[t := Ready], sched := s.sched.WithActive(Insert(s.sched.Active(), t, s.meta[t])))
            && SchedInv(q.sched, q.size, q.meta, q.st, q.started) && Dormant(q.st, q.started)
            && BlockedRunner(q.sched, q.st) == BlockedRunner(s.sched, s.st) && Current(q) == Current(s)
  {
    ReadyUp(s.sched, s.size, s.meta, s.st, s.started, t);
  }

  lemma AccountFor(sc: Sched, size: nat, meta: seq<Meta>, st: seq<JobState>, started: seq<bool>)
    requires SchedTables(sc, size, meta, st, started)
    ensures RunningAccounted(sc, size, ReadySet(st, started), BlockedRunner(sc, st))
    ensures sc.current.Some? ==>
              sc.Running(0) < |st| - 1 && (sc.Running(0) in ReadySet(st, started) <==> st[sc.Running(0)] == Ready)
  {
    if sc.current.Some? {
      RunnerKnown(sc, size, meta, st, started);
    }
  }

  lemma ElectedSettled(r: Sched, size: nat, meta: seq<Meta>, st: seq<JobState>, started: seq<bool>)
    requires 1 <= |meta| == |st| == |started| <= size
    requires Tables(r, size, meta, |meta| - 1) && Conserves(r, ReadySet(st, started), None)
    requires r.current.Some? ==> r.Running(0) in ReadySet(st, started)
    ensures SchedTables(r, size, meta, st, started) && BlockedRunner(r, st) == None
  {
  }

  lemma ElectSchedInv(sc: Sched, size: nat, meta: seq<Meta>, st: seq<JobState>, started: seq<bool>, stillReady: bool)
    requires SchedTables(sc, size, meta, st, started) && QuantaButRunner(sc) && MetaOk(meta)
    requires sc.current.Some? && sc.Running(0) < |st| ==> (stillReady <==> st[sc.Running(0)] == Ready)
    ensures sc.current.Some? ==> sc.Running(0) < |st| - 1 && sc.Backed().num <= size
    ensures var r := ElectSched(sc, meta, stillReady);
            && SchedInv(r, size, meta, st, started) && BlockedRunner(r, st) == None
            && (r.current == None <==> ReadySet(st, started) == {})
            && (r.current.Some? ==>
                r.Running(0) in ReadySet(st, started) && IsBest(r.Active().cells, r.current.value))
  {
    AccountFor(sc, size, meta, st, started);
    ElectKeeps(sc, size, meta, |meta| - 1, ReadySet(st, started), BlockedRunner(sc, st), stillReady);
    ElectIdle(sc, meta, stillReady);
    ElectQuanta(sc, size, meta, stillReady);
    ElectedSettled(ElectSched(sc, meta, stillReady), size, meta, st, started);
  }

  /** An election leaves the core to idle only when both jobsets are empty. */
  lemma ElectIdle(sc: Sched, meta: seq<Meta>, stillReady: bool)
    requires sc.Shaped(|sc.primary.cells|) && (sc.current.Some? ==> sc.Running(0) < |meta|)
    requires var r := ElectSched(sc, meta, stillReady);
             r.primary.num == Size(r.primary.cells) && r.secondary.num == Size(r.secondary.cells)
    ensures IdleAlone(ElectSched(sc, meta, stillReady))
  {
    var r := ElectSched(sc, meta, stillReady);
    SizeBounds(r.Active().cells);
  }

  /** An election may start with the running job's quantum used up. */
  ghost predicate CoreButQuantum(s: State) {
    && WF(s) && !s.panicked && MetaOk(s.meta)
    && SchedTables(s.sched, s.size, s.meta, s.st, s.started) && QuantaButRunner(s.sched) && Dormant(s.st, s.started)
    && DelayInv(s.delays, s.st, s.ret) && RetInv(s.st, s.ret)
  }

  lemma ElectCore(s: State)
    requires CoreButQuantum(s)
    ensures var q := Elect(s);
            && Core(q) && q == s.(sched := q.sched) && Settled(q)
            && (q.sched.current == None <==> ReadySet(s.st, s.started) == {})
            && (q.sched.current.Some? ==>
                Current(q) in ReadySet(s.st, s.started) && IsBest(q.sched.Active().cells, q.sched.current.value))
  {
    ElectSchedInv(s.sched, s.size, s.meta, s.st, s.started, s.st[Current(s)] == Ready);
  }

  lemma ElectMid(s: State)
    requires Mid(s)
    ensures Inv(Elect(s))
  {
    ElectCore(s);
  }

  // ---- Delay queue -----------------------------------------------------------------------------------

  /** A task can always be added to the delay queue. */
  lemma DelayRoom(s: State)
    requires Core(s)
    ensures DelayHasRoom(s)
  {
    FreeCell(s.delays, s.Users());
  }

  /** Removing a task's delayed job leaves it none. */
  lemma DelayDelCount(s: State, t: nat)
    requires WF(s) && Count(s.delays, t) <= 1
    ensures forall u :: Count(DelayDel(s, t).delays, u) == if u == t then 0 else Count(s.delays, u)
    ensures forall i :: 0 <= i < s.size && DelayDel(s, t).delays[i].active ==>
              s.delays[i].active && DelayDel(s, t).delays[i] == s.delays[i] && s.delays[i].handler != t
  {
    var i := FirstOf(s.delays, t);
    CountHolds(s.delays, t);
    if i < |s.delays| {
      CellUpdate(s.delays, i, s.delays[i].(active := false));
      forall j | 0 <= j < s.size && j != i ensures !IsFor(s.delays[j], t) {
        if IsFor(s.delays[j], t) {
          CountTwice(s.delays, i, j, t);
        }
      }
    }
  }

  lemma DelayInvDel(s: State, t: nat, r: Status)
    requires WF(s) && DelayInv(s.delays, s.st, s.ret) && t < s.N()
    ensures DelayInv(DelayDel(s, t).delays, s.st[t := Ready], s.ret[t := Some(r)])
  {
    DelayDelCount(s, t);
  }

  lemma ReadyColumns(st: seq<JobState>, started: seq<bool>, ret: seq<Option<Status>>, t: nat, r: Status)
    requires Dormant(st, started) && RetInv(st, ret) && t < |st|
    ensures Dormant(st[t := Ready], started) && RetInv(st[t := Ready], ret[t := Some(r)])
  {
  }

  /** The state after a wake-up, spelled out. */
  ghost function Woken(s: State, t: nat, r: Status): State
    requires WF(s) && t < s.N()
  {
    s.(st := s.st[t := Ready], ret := s.ret[t := Some(r)], delays := DelayDel(s, t).delays,
       sched := s.sched.WithActive(Insert(s.sched.Active(), t, s.meta[t])))
  }

  lemma WakeEffect(s: State, t: nat, r: Status)
    requires Core(s) && t < s.N() && s.st[t] != Ready
    requires s.sched.current.Some? ==> Current(s) != t
    ensures Wake(s, t, r) == Woken(s, t, r)
  {
    ReadyUp(s.sched, s.size, s.meta, s.st, s.started, t);
  }

  /** An event wakes a sleeping or waiting task. */
  lemma WakeCore(s: State, t: nat, r: Status)
    requires Core(s) && t < s.N() && s.st[t] != Ready
    requires s.sched.current.Some? ==> Current(s) != t
    ensures var q := Wake(s, t, r);
            && q == Woken(s, t, r) && Core(q)
            && Current(q) == Current(s) && BlockedRunner(q.sched, q.st) == BlockedRunner(s.sched, s.st)
  {
    WakeEffect(s, t, r);
    DelayInvDel(s, t, r);
    ReadyColumns(s.st, s.started, s.ret, t, r);
    ReadyUp(s.sched, s.size, s.meta, s.st, s.started, t);
  }
}
