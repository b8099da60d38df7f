/** The system tick: quantum refresh, delayed jobs, delayed signals. */
module TickProofs {
  import opened Slots
  import opened Rings
  import opened Exchange
  import opened IpcGraph
  import opened Rrmq
  import opened KernelSpec
  import opened Invariants
  import opened GateProofs

  // ---- Refresh -----------------------------------------------------------------------------------------

  lemma BurnCounts(sc: Sched, size: nat, meta: seq<Meta>, tasks: nat)
    requires Tables(sc, size, meta, tasks) && sc.current.Some?
    ensures var r := BurnQuantum(sc);
            && r.Shaped(size) && r.current == sc.current && r.Running(0) == sc.Running(0)
            && r.primary.num == sc.primary.num && r.secondary.num == sc.secondary.num
            && Size(r.primary.cells) == Size(sc.primary.cells) && Size(r.secondary.cells) == Size(sc.secondary.cells)
            && forall t :: Copies(r, t) == Copies(sc, t)
  {
    var a, i := sc.Active(), sc.current.value;
    var c := a.cells[i];
    CellUpdate(a.cells, i, c.(data := c.data.(quantum := Dec32(c.data.quantum))));
  }

  /** Burning a tick disturbs the running cell's quantum only. */
  lemma BurnKeeps(sc: Sched, size: nat, meta: seq<Meta>, st: seq<JobState>, started: seq<bool>)
    requires SchedInv(sc, size, meta, st, started) && sc.current.Some?
    ensures var r := BurnQuantum(sc);
            && SchedTables(r, size, meta, st, started) && QuantaButRunner(r)
            && BlockedRunner(r, st) == BlockedRunner(sc, st) && r.current == sc.current
            && r.Active().cells[sc.current.value].data.quantum == sc.Active().cells[sc.current.value].data.quantum - 1
            && (r.Active().cells[sc.current.value].data.quantum > 0 ==> Quanta(r))
  {
    BurnCounts(sc, size, meta, |meta| - 1);
  }

  /** Columns other than the scheduler's do not notice the refresh. */
  lemma SchedOnly(s: State, q: State)
    requires Mid(s) && q == s.(sched := q.sched, jiffies := q.jiffies) && Core(q)
    ensures Mid(q)
  {
    assert forall u, m :: 0 <= u < s.N() && NothingPending(s, u, m) ==> NothingPending(q, u, m);
  }

  lemma RefreshCore(s: State)
    requires Core(s) && Settled(s)
    ensures Core(Refresh(s)) && Settled(Refresh(s)) && Refresh(s) == s.(sched := Refresh(s).sched)
  {
    if s.sched.current.Some? {
      var b := s.(sched := BurnQuantum(s.sched));
      BurnKeeps(s.sched, s.size, s.meta, s.st, s.started);
      if b.sched.Active().cells[b.sched.current.value].data.quantum == 0 {
        ElectCore(b);
      }
    }
  }

  lemma RefreshKeeps(s: State)
    requires Inv(s)
    ensures Inv(Refresh(s)) && Refresh(s) == s.(sched := Refresh(s).sched)
  {
    RefreshCore(s);
    hide Refresh;
    SchedOnly(s, Refresh(s));
  }

  // ---- Delayed jobs ---------------------------------------------------------------------------------------

  /** An active cell of `t` that this tick brings to its end. */
  predicate Due(c: DelayCell, t: nat) {
    IsFor(c, t) && Expires(c.data.remaining)
  }

  predicate DueTo(delays: seq<DelayCell>, t: nat, k: nat)
    requires k <= |delays|
  {
    exists j :: 0 <= j < k && Due(delays[j], t)
  }

  /** What a due cell does, spelled out. */
  ghost function Expired(s: State, i: nat): State
    requires WF(s) && i < s.size
  {
    var h := s.delays[i].handler;
    s.(st := s.st[h := Ready], ret := s.ret[h := Some(Timeout)], delays := s.delays[i := Aged(s.delays[i])],
       sched := s.sched.WithActive(Insert(s.sched.Active(), h, s.meta[h])))
  }

  /** Delay cell `i` is due, but its task is held: the loop panics on it. */
  predicate Jams(s: State, i: nat)
    requires WF(s)
  {
    && i < s.size && s.delays[i].active && Expires(s.delays[i].data.remaining)
    && Held(s, s.delays[i].handler)
  }

  lemma TickJobEffect(s: State, i: nat)
    requires Inv(s) && i < s.size && !Jams(s, i)
    ensures TickJob(s, i) ==
            if s.delays[i].active && Expires(s.delays[i].data.remaining) then Expired(s, i)
            else s.(delays := s.delays[i := Aged(s.delays[i])])
  {
    var c := s.delays[i];
    assert s.delays[i := c] == s.delays;
    if c.active && Expires(c.data.remaining) {
      RunnerReady(s);
      ReadyUp(s.sched, s.size, s.meta, s.st, s.started, c.handler);
    }
  }

  lemma DelayInvAged(delays: seq<DelayCell>, st: seq<JobState>, ret: seq<Option<Status>>, i: nat)
    requires DelayInv(delays, st, ret) && i < |delays|
    ensures var h, next := delays[i].handler, delays[i := Aged(delays[i])];
            if delays[i].active && Expires(delays[i].data.remaining)
            then DelayInv(next, st[h := Ready], ret[h := Some(Timeout)]) else DelayInv(next, st, ret)
  {
    var c := delays[i];
    var next := delays[i := Aged(c)];
    CellUpdate(delays, i, Aged(c));
    if c.active && Expires(c.data.remaining) {
      assert forall t :: Count(next, t) == Count(delays, t) - (if t == c.handler then 1 else 0);
      forall j | 0 <= j < |delays| && j != i && delays[j].active ensures delays[j].handler != c.handler {
        if delays[j].handler == c.handler {
          CountTwice(delays, i, j, c.handler);
        }
      }
    } else {
      assert forall t :: IsFor(Aged(c), t) == IsFor(c, t);
      assert forall t :: Count(next, t) == Count(delays, t);
    }
  }

  lemma ExpiredInv(s: State, i: nat)
    requires Inv(s) && i < s.size && s.delays[i].active && Expires(s.delays[i].data.remaining) && !Jams(s, i)
    ensures Inv(Expired(s, i)) && Current(Expired(s, i)) == Current(s)
  {
    TickJobEffect(s, i);
    RunnerReady(s);
    var h, q := s.delays[i].handler, Expired(s, i);
    ReadyUp(s.sched, s.size, s.meta, s.st, s.started, h);
    ReadyColumns(s.st, s.started, s.ret, h, Timeout);
    DelayInvAged(s.delays, s.st, s.ret, i);
    SlotInvOther(s.ipcs, s.st, s.sentTo, h, Ready);
    WakeInvWoken(s, q, h);
  }

  lemma DelaysOnly(s: State, q: State)
    requires Inv(s) && q == s.(delays := q.delays) && WF(q) && DelayInv(q.delays, s.st, s.ret)
    ensures Inv(q) && Current(q) == Current(s)
  {
    assert forall u, m :: 0 <= u < s.N() && NothingPending(s, u, m) ==> NothingPending(q, u, m);
  }

  lemma TickJobKeeps(s: State, i: nat)
    requires Inv(s) && i < s.size && !Jams(s, i)
    ensures Inv(TickJob(s, i)) && Current(TickJob(s, i)) == Current(s)
  {
    TickJobEffect(s, i);
    if s.delays[i].active && Expires(s.delays[i].data.remaining) {
      ExpiredInv(s, i);
    } else {
      DelayInvAged(s.delays, s.st, s.ret, i);
      DelaysOnly(s, TickJob(s, i));
    }
  }

  ghost predicate AgedTo(before: seq<DelayCell>, after: seq<DelayCell>, k: nat) {
    |after| == |before| &&
    forall j :: 0 <= j < |before| ==> after[j] == if j < k then Aged(before[j]) else before[j]
  }

  /** Exactly the tasks with a due cell among the first `k` became ready, with TIMEOUT. */
  ghost predicate Roused(delays: seq<DelayCell>, k: nat, st: seq<JobState>, st': seq<JobState>,
                         ret: seq<Option<Status>>, ret': seq<Option<Status>>)
    requires k <= |delays|
  {
    && |st'| == |st| == |ret| == |ret'|
    && forall t :: 0 <= t < |st| ==>
         && st'[t] == (if DueTo(delays, t, k) then Ready else st[t])
         && ret'[t] == (if DueTo(delays, t, k) then Some(Timeout) else ret[t])
  }

  /** What the first `k` delayed cells did to the state. */
  ghost predicate Ticked(s: State, q: State, k: nat)
    requires WF(s) && k <= s.size
  {
    && q == s.(st := q.st, ret := q.ret, sched := q.sched, delays := q.delays, jiffies := q.jiffies)
    && AgedTo(s.delays, q.delays, k) && Roused(s.delays, k, s.st, q.st, s.ret, q.ret)
  }

  lemma TickedStep(s: State, q: State, r: State, k: nat)
    requires WF(s) && WF(q) && WF(r) && k < s.size && Ticked(s, q, k)
    requires r == if q.delays[k].active && Expires(q.delays[k].data.remaining) then Expired(q, k)
                  else q.(delays := q.delays[k := Aged(q.delays[k])])
    ensures Ticked(s, r, k + 1)
  {
    var c := s.delays[k];
    forall t | 0 <= t < s.N()
      ensures DueTo(s.delays, t, k + 1) <==> DueTo(s.delays, t, k) || Due(c, t)
    {
    }
  }

  lemma TickedNone(s: State, r: State)
    requires WF(s) && WF(r) && r == s.(sched := r.sched, jiffies := r.jiffies)
    ensures Ticked(s, r, 0)
  {
  }

  lemma TickJobTicked(s: State, q: State, k: nat)
    requires WF(s) && Inv(q) && k < s.size && Ticked(s, q, k) && !Jams(q, k)
    ensures Ticked(s, TickJob(q, k), k + 1)
  {
    TickJobEffect(q, k);
    TickedStep(s, q, TickJob(q, k), k);
  }

  /** The cells before `k` do not change whether cell `k` jams. */
  lemma JamsTicked(s: State, q: State, k: nat)
    requires Inv(s) && WF(q) && k < s.size && Ticked(s, q, k)
    ensures Jams(q, k) <==> Jams(s, k)
  {
    var c := s.delays[k];
    if c.active && DueTo(s.delays, c.handler, k) {
      var j :| 0 <= j < k && Due(s.delays[j], c.handler);
      CountTwice(s.delays, j, k, c.handler);
    }
  }

  lemma TickJobPanic(s: State, i: nat)
    requires WF(s) && i < s.size && (s.panicked || Jams(s, i))
    ensures TickJob(s, i).panicked
  {
  }

  /** A panic in a loop of the tick is a panic of the tick. */
  lemma {:induction false} TickJobsPanic(s: State, i: nat, k: nat)
    requires WF(s) && i <= k <= s.size && TickJobs(s, i).panicked
    ensures TickJobs(s, k).panicked
  {
    hide TickJob, WF;
    if i < k {
      TickJobsPanic(s, i, k - 1);
      TickJobPanic(TickJobs(s, k - 1), k - 1);
    }
  }

  lemma TickAlarmPanic(s: State, i: nat)
    requires WF(s) && i < s.size && s.panicked
    ensures TickAlarm(s, i).panicked
  {
  }

  lemma {:induction false} TickAlarmsPanic(s: State, i: nat, k: nat)
    requires WF(s) && i <= k <= s.size && TickAlarms(s, i).panicked
    ensures TickAlarms(s, k).panicked
  {
    hide TickAlarm, WF;
    if i < k {
      TickAlarmsPanic(s, i, k - 1);
      TickAlarmPanic(TickAlarms(s, k - 1), k - 1);
    }
  }

  /** Induction over the delayed-job loop. */
  lemma {:induction false} TickJobsInduct(s: State, k: nat, good: (State, nat) -> bool)
    requires WF(s) && k <= s.size && good(s, 0)
    requires forall p, i: nat :: WF(p) && p.size == s.size && i < k && good(p, i) ==> good(TickJob(p, i), i + 1)
    ensures good(TickJobs(s, k), k)
  {
    hide TickJob;
    if k > 0 {
      TickJobsInduct(s, k - 1, good);
    }
  }

  /** The state between the two loops of the tick. */
  ghost function Halfway(s: State): (q: State)
    requires WF(s)
    ensures WF(q) && q.meta == s.meta && q.size == s.size
  {
    TickJobs(Refresh(Clock(s)), s.size)
  }

  lemma RefreshTicked(s: State)
    requires Inv(s)
    ensures Inv(Refresh(Clock(s))) && Ticked(s, Refresh(Clock(s)), 0)
  {
    var c := Clock(s);
    SchedOnly(s, c);
    RefreshKeeps(c);
    TickedNone(s, Refresh(c));
  }

  /** The first `i` delayed cells kept the invariant. */
  ghost predicate TickedSafely(s: State, p: State, i: nat, runner: nat)
    requires WF(s)
  {
    Inv(p) && Current(p) == runner && i <= s.size && Ticked(s, p, i)
  }

  lemma TickedSafelyStep(s: State, p: State, i: nat, runner: nat)
    requires Inv(s) && i < s.size && p.size == s.size && TickedSafely(s, p, i, runner) && !Jams(s, i)
    ensures TickedSafely(s, TickJob(p, i), i + 1, runner)
  {
    hide Inv, Ticked, TickJob, Jams;
    InvShape(s);
    InvShape(p);
    JamsTicked(s, p, i);
    TickJobKeeps(p, i);
    TickJobTicked(s, p, i);
  }

  lemma TickedSafelyParts(s: State, p: State, i: nat, runner: nat)
    requires WF(s) && i <= s.size
    ensures TickedSafely(s, p, i, runner) <==> Inv(p) && Current(p) == runner && Ticked(s, p, i)
  {
  }

  lemma TickJobsKeep(s: State, r: State, k: nat)
    requires Inv(s) && Inv(r) && Ticked(s, r, 0) && k <= s.size && forall i :: 0 <= i < k ==> !Jams(s, i)
    ensures TickJobs.requires(r, k) && Inv(TickJobs(r, k)) && Ticked(s, TickJobs(r, k), k)
    ensures Current(TickJobs(r, k)) == Current(r)
  {
    hide Inv, WF, Ticked, TickedSafely, TickJob, TickJobs, Jams;
    InvShape(s);
    InvShape(r);
    TickedSize(s, r);
    var c := Current(r);
    var good := (p: State, i: nat) => TickedSafely(s, p, i, c);
    TickedSafelyParts(s, r, 0, c);
    forall p, i: nat | WF(p) && p.size == r.size && i < k && good(p, i) ensures good(TickJob(p, i), i + 1) {
      TickedSafelyStep(s, p, i, c);
    }
    TickJobsInduct(r, k, good);
    TickedSafelyParts(s, TickJobs(r, k), k, c);
  }

  lemma TickedSize(s: State, q: State)
    requires WF(s) && Ticked(s, q, 0)
    ensures q.size == s.size
  {
  }

  /** A left-over timeout of a held task is due in this tick. */
  predicate Jammed(s: State)
    requires WF(s)
  {
    exists i :: 0 <= i < s.size && Jams(s, i)
  }

  /** Refresh and delayed jobs keep the invariant; exactly the tasks that are due become ready. */
  lemma HalfwayKeeps(s: State)
    requires Inv(s) && !Jammed(s)
    ensures Inv(Halfway(s)) && Ticked(s, Halfway(s), s.size) && Current(Halfway(s)) == Current(Refresh(s))
  {
    ClockUnseen(s);
    hide Refresh, TickJob, TickJobs, Ticked, Jams;
    RefreshTicked(s);
    TickJobsKeep(s, Refresh(Clock(s)), s.size);
  }

  lemma ClockUnseen(s: State)
    requires WF(s)
    ensures Refresh(Clock(s)) == Clock(Refresh(s)) && Current(Refresh(Clock(s))) == Current(Refresh(s))
  {
    hide ElectSched, BurnQuantum;
  }

  /** The first cell that jams. */
  lemma {:induction false} FirstJam(s: State, k: nat) returns (i: nat)
    requires WF(s) && k <= s.size && exists j :: 0 <= j < k && Jams(s, j)
    ensures i < k && Jams(s, i) && forall j :: 0 <= j < i ==> !Jams(s, j)
  {
    hide Jams;
    if exists j :: 0 <= j < k - 1 && Jams(s, j) {
      i := FirstJam(s, k - 1);
    } else {
      i := k - 1;
    }
  }

  lemma TickJams(s: State)
    requires Inv(s) && Jammed(s)
    ensures Tick(s).panicked
  {
    hide Inv, Refresh, TickJob, TickAlarm, Ticked, Jams;
    InvShape(s);
    var i := FirstJam(s, s.size);
    var r := Refresh(Clock(s));
    RefreshTicked(s);
    TickJobsKeep(s, r, i);
    JamsTicked(s, TickJobs(r, i), i);
    TickJobPanic(TickJobs(r, i), i);
    TickJobsPanic(r, i + 1, s.size);
    TickAlarmsPanic(TickJobs(r, s.size), 0, s.size);
  }

  // ---- Delayed signals ----------------------------------------------------------------------------------

  /** Alarm cell `i` fires now at a task that waits for events and has a free alarm slot. */
  predicate Hits(s: State, i: nat)
    requires WF(s)
  {
    && i < s.size && Fires(s.alarms[i])
    && var h := s.alarms[i].handler; s.st[h] == WaitForEvent && s.sigs[h][h] == 0
  }

  lemma TickAlarmEffect(s: State, i: nat)
    requires WF(s) && i < s.size && !Hits(s, i)
    ensures var c := s.alarms[i];
            var h := c.handler;
            var p := if Fires(c) && s.sigs[h][h] == 0 then StoreSig(s, c.data.sig, h, h) else s;
            TickAlarm(s, i) == p.(alarms := s.alarms[i := AgedAlarm(c)])
  {
    var c := s.alarms[i];
    assert s.alarms[i := c] == s.alarms;
  }

  /** What a hit does, spelled out: the signal is stored and the task made ready, its return value
      and its delayed job are left alone. */
  ghost function Struck(s: State, i: nat): State
    requires WF(s) && i < s.size
  {
    var c := s.alarms[i];
    s.(sigs := Put(s.sigs, c.handler, c.handler, c.data.sig), st := s.st[c.handler := Ready],
       sched := s.sched.WithActive(Insert(s.sched.Active(), c.handler, s.meta[c.handler])),
       alarms := s.alarms[i := AgedAlarm(c)])
  }

  lemma TickAlarmHit(s: State, i: nat)
    requires Inv(s) && Hits(s, i)
    ensures TickAlarm(s, i) == Struck(s, i)
  {
    RunnerReady(s);
    hide SchedInv, Mail, WakeInv, DelayInv, RetInv, Dormant;
    ScheduleReady(s, s.alarms[i].handler);
  }

  lemma StruckCore(s: State, i: nat)
    requires Inv(s) && Hits(s, i)
    ensures var q := Struck(s, i); Core(q) && Settled(q) && Current(q) == Current(s)
  {
    TickAlarmHit(s, i);
    RunnerReady(s);
    var h := s.alarms[i].handler;
    assert s.ret[h] == Some(NonSense);
    ReadyUp(s.sched, s.size, s.meta, s.st, s.started, h);
    hide SchedInv, Mail, WakeInv, TickAlarm;
    HeldColumns(s.st, s.started, s.ret, s.delays, h);
  }

  /** A waiting task that is made ready without a return value is held. */
  lemma HeldColumns(st: seq<JobState>, started: seq<bool>, ret: seq<Option<Status>>, delays: seq<DelayCell>, h: nat)
    requires Dormant(st, started) && RetInv(st, ret) && DelayInv(delays, st, ret)
    requires h < |st| && st[h] == WaitForEvent && ret[h] == Some(NonSense)
    ensures Dormant(st[h := Ready], started) && RetInv(st[h := Ready], ret) && DelayInv(delays, st[h := Ready], ret)
  {
  }

  lemma StruckMail(s: State, i: nat)
    requires Inv(s) && Hits(s, i)
    ensures Mail(Struck(s, i))
  {
    var c := s.alarms[i];
    SlotInvOther(s.ipcs, s.st, s.sentTo, c.handler, Ready);
    SigInvPut(s.sigs, c.handler, c.handler, c.data.sig);
  }

  lemma StruckWake(s: State, i: nat)
    requires Inv(s) && Hits(s, i) && WF(Struck(s, i))
    ensures WakeInv(Struck(s, i))
  {
    var c := s.alarms[i];
    StoredExcept(s, c.handler, c.handler, c.data.sig);
    WakeInvWoken(StoreSig(s, c.data.sig, c.handler, c.handler), Struck(s, i), c.handler);
  }

  lemma StoredQuietly(s: State, t: nat, sig: nat)
    requires Inv(s) && t < s.N() && s.st[t] != WaitForEvent && sig <= SIGNAL_USR2
    ensures Inv(StoreSig(s, sig, t, t)) && Current(StoreSig(s, sig, t, t)) == Current(s)
  {
    StoredExcept(s, t, t, sig);
  }

  lemma QuietKeeps(s: State, i: nat)
    requires Inv(s) && i < s.size && !Hits(s, i)
    ensures Inv(TickAlarm(s, i)) && Current(TickAlarm(s, i)) == Current(s)
  {
    TickAlarmEffect(s, i);
    var c := s.alarms[i];
    var alarms := s.alarms[i := AgedAlarm(c)];
    if Fires(c) && s.sigs[c.handler][c.handler] == 0 {
      StoredQuietly(s, c.handler, c.data.sig);
      AlarmsOnly(StoreSig(s, c.data.sig, c.handler, c.handler), alarms);
    } else {
      AlarmsOnly(s, alarms);
    }
  }

  lemma TickAlarmKeeps(s: State, i: nat)
    requires Inv(s) && i < s.size
    ensures Inv(TickAlarm(s, i)) && Current(TickAlarm(s, i)) == Current(s)
  {
    if Hits(s, i) {
      TickAlarmHit(s, i);
      StruckCore(s, i);
      StruckMail(s, i);
      StruckWake(s, i);
    } else {
      QuietKeeps(s, i);
    }
  }

  /** One of the first `k` alarm cells hits task `t`. */
  predicate HitBy(s: State, t: nat, k: nat)
    requires WF(s)
  {
    exists j :: 0 <= j < k && Hits(s, j) && s.alarms[j].handler == t
  }

  /** What the first `k` alarm cells did to the state. */
  ghost predicate Rung(s: State, q: State, k: nat)
    requires WF(s) && WF(q) && k <= s.size
  {
    && q == s.(sigs := q.sigs, alarms := q.alarms, st := q.st, sched := q.sched)
    && (forall j :: 0 <= j < s.size ==> q.alarms[j] == if j < k then AgedAlarm(s.alarms[j]) else s.alarms[j])
    && (forall t :: 0 <= t < s.N() ==> q.st[t] == if HitBy(s, t, k) then Ready else s.st[t])
    && RungSlots(s, q, k)
  }

  /** One of the first `k` alarm cells rings for task `t`. */
  predicate RingsFor(alarms: seq<AlarmCell>, t: nat, k: nat)
    requires k <= |alarms|
  {
    exists j :: 0 <= j < k && Fires(alarms[j]) && alarms[j].handler == t
  }

  /** Pending signals stay, every alarm that rang leaves its signal in its task's own slot if that
      was free, and there is no other new signal. */
  ghost predicate RungSlots(s: State, q: State, k: nat)
    requires WF(s) && WF(q) && k <= s.size && q.N() == s.N()
  {
    && (forall d, x :: 0 <= d < s.N() && 0 <= x < s.N() && s.sigs[d][x] != 0 ==> q.sigs[d][x] == s.sigs[d][x])
    && (forall d, x :: 0 <= d < s.N() && 0 <= x < s.N() && s.sigs[d][x] == 0 ==>
          q.sigs[d][x] == if d == x && RingsFor(s.alarms, d, k) then SIGNAL_ALARM else 0)
    && (forall t :: 0 <= t < s.N() && q.st[t] == WaitForEvent ==> q.sigs[t][t] == s.sigs[t][t])
  }

  /** A cell hits in its turn exactly when it would have hit at once and its task was not hit before. */
  lemma HitsInTurn(s: State, q: State, k: nat)
    requires WF(s) && WF(q) && k < s.size && Rung(s, q, k)
    ensures Hits(q, k) <==> Hits(s, k) && !HitBy(s, s.alarms[k].handler, k)
  {
    assert q.alarms[k] == s.alarms[k];
  }

  lemma HitByNext(s: State, t: nat, k: nat)
    requires WF(s) && k < s.size
    ensures HitBy(s, t, k + 1) <==> HitBy(s, t, k) || (Hits(s, k) && s.alarms[k].handler == t)
  {
  }

  lemma RingsForNext(alarms: seq<AlarmCell>, t: nat, k: nat)
    requires k < |alarms|
    ensures RingsFor(alarms, t, k + 1) <==> RingsFor(alarms, t, k) || (Fires(alarms[k]) && alarms[k].handler == t)
  {
  }

  lemma RungSlotsNext(s: State, q: State, r: State, k: nat)
    requires WF(s) && WF(q) && WF(r) && k < s.size && s.N() == q.N() == r.N() && RungSlots(s, q, k)
    requires AlarmInv(s.alarms)
    requires var c := s.alarms[k];
             var rings := Fires(c) && q.sigs[c.handler][c.handler] == 0;
             && r.sigs == (if rings then Put(q.sigs, c.handler, c.handler, c.data.sig) else q.sigs)
             && (rings ==> r.st[c.handler] != WaitForEvent)
    requires forall t :: 0 <= t < s.N() && r.st[t] == WaitForEvent ==> q.st[t] == WaitForEvent
    ensures RungSlots(s, r, k + 1)
  {
    hide RingsFor;
    forall t | 0 <= t < s.N()
      ensures RingsFor(s.alarms, t, k + 1) <==>
              RingsFor(s.alarms, t, k) || (Fires(s.alarms[k]) && s.alarms[k].handler == t)
    {
      RingsForNext(s.alarms, t, k);
    }
  }

  lemma RungHit(s: State, q: State, k: nat)
    requires WF(s) && Inv(q) && k < s.size && Rung(s, q, k) && Hits(q, k) && AlarmInv(s.alarms)
    ensures WF(TickAlarm(q, k)) && Rung(s, TickAlarm(q, k), k + 1)
  {
    TickAlarmHit(q, k);
    HitsInTurn(s, q, k);
    RungSlotsNext(s, q, Struck(q, k), k);
    hide TickAlarm, Inv, Hits, HitBy, RungSlots;
    forall t | 0 <= t < s.N() ensures Struck(q, k).st[t] == if HitBy(s, t, k + 1) then Ready else s.st[t] {
      HitByNext(s, t, k);
    }
  }

  lemma RungQuiet(s: State, q: State, k: nat)
    requires WF(s) && WF(q) && k < s.size && Rung(s, q, k) && !Hits(q, k) && AlarmInv(s.alarms)
    ensures Rung(s, TickAlarm(q, k), k + 1)
  {
    TickAlarmEffect(q, k);
    HitsInTurn(s, q, k);
    RungSlotsNext(s, q, TickAlarm(q, k), k);
    hide TickAlarm, HitBy, RungSlots;
    forall t | 0 <= t < s.N() ensures q.st[t] == if HitBy(s, t, k + 1) then Ready else s.st[t] {
      HitByNext(s, t, k);
    }
  }

  lemma TickAlarmRung(s: State, q: State, k: nat)
    requires WF(s) && Inv(q) && k < s.size && Rung(s, q, k) && AlarmInv(s.alarms)
    ensures Rung(s, TickAlarm(q, k), k + 1)
  {
    hide Rung, TickAlarm;
    if Hits(q, k) {
      RungHit(s, q, k);
    } else {
      RungQuiet(s, q, k);
    }
  }

  lemma {:induction false} TickAlarmsInduct(s: State, k: nat, good: (State, nat) -> bool)
    requires WF(s) && k <= s.size && good(s, 0)
    requires forall p, i: nat :: WF(p) && p.size == s.size && i < k && good(p, i) ==> good(TickAlarm(p, i), i + 1)
    ensures good(TickAlarms(s, k), k)
  {
    hide TickAlarm;
    if k > 0 {
      TickAlarmsInduct(s, k - 1, good);
    }
  }

  /** The first `i` alarm cells kept the invariant and the running task. */
  ghost predicate RungSafely(s: State, p: State, i: nat)
    requires WF(s)
  {
    Inv(p) && Current(p) == Current(s) && i <= s.size && Rung(s, p, i)
  }

  lemma RungSafelyNone(s: State)
    requires Inv(s)
    ensures RungSafely(s, s, 0)
  {
  }

  lemma RungSafelyStep(s: State, p: State, i: nat)
    requires Inv(s) && i < s.size && RungSafely(s, p, i)
    ensures RungSafely(s, TickAlarm(p, i), i + 1)
  {
    RungSize(s, p, i);
    hide TickAlarm, Rung;
    TickAlarmRung(s, p, i);
    TickAlarmKeeps(p, i);
  }

  lemma RungSize(s: State, q: State, k: nat)
    requires WF(s) && WF(q) && k <= s.size && Rung(s, q, k)
    ensures q.size == s.size && q.meta == s.meta
  {
  }

  /** The delayed-signal loop keeps the invariant, whatever the alarms hit. */
  lemma TickAlarmsKeep(s: State, k: nat)
    requires Inv(s) && k <= s.size
    ensures Inv(TickAlarms(s, k)) && Current(TickAlarms(s, k)) == Current(s) && Rung(s, TickAlarms(s, k), k)
  {
    hide Inv, WF, Rung, RungSafely, TickAlarm, TickAlarms;
    InvShape(s);
    var good := (p: State, i: nat) => RungSafely(s, p, i);
    RungSafelyNone(s);
    forall p, i: nat | WF(p) && p.size == s.size && i < k && good(p, i) ensures good(TickAlarm(p, i), i + 1) {
      RungSafelyStep(s, p, i);
    }
    TickAlarmsInduct(s, k, good);
    RungSafelyParts(s, TickAlarms(s, k), k);
  }

  lemma RungSafelyParts(s: State, p: State, i: nat)
    requires WF(s) && RungSafely(s, p, i)
    ensures Inv(p) && Current(p) == Current(s) && Rung(s, p, i)
  {
  }

  // ---- The whole tick -------------------------------------------------------------------------------------

  /** An alarm of this tick finds task `t` waiting for events, its slot free, and no timeout of the
      same tick to wake it first. */
  predicate Misfired(s: State, t: nat)
    requires WF(s)
  {
    HitBy(s, t, s.size) && !DueTo(s.delays, t, s.size)
  }

  predicate Misfires(s: State)
    requires WF(s)
  {
    exists t :: 0 <= t < s.N() && Misfired(s, t)
  }

  /** Timeouts of the tick come before its alarms. */
  lemma HitsHalfway(s: State, i: nat)
    requires Inv(s) && !Jammed(s) && i < s.size
    ensures Hits(Halfway(s), i) <==> Hits(s, i) && !DueTo(s.delays, s.alarms[i].handler, s.size)
  {
    hide Halfway, Jammed;
    HalfwayKeeps(s);
  }

  lemma MisfiredHalfway(s: State, t: nat)
    requires Inv(s) && !Jammed(s) && t < s.N()
    ensures HitBy(Halfway(s), t, s.size) <==> Misfired(s, t)
  {
    hide Inv, Halfway, Jammed, Hits, DueTo, Ticked;
    HalfwayAlarms(s);
    forall i | 0 <= i < s.size
      ensures Hits(Halfway(s), i) <==> Hits(s, i) && !DueTo(s.delays, s.alarms[i].handler, s.size)
    {
      HitsHalfway(s, i);
    }
  }

  lemma HalfwayAlarms(s: State)
    requires Inv(s) && !Jammed(s)
    ensures WF(s) && Halfway(s).alarms == s.alarms && Halfway(s).sigs == s.sigs
  {
    hide Halfway, Jammed;
    HalfwayKeeps(s);
  }

  /** A tick keeps the invariant exactly when no left-over timeout of a held task is due. */
  lemma TickKeeps(s: State)
    requires Inv(s)
    ensures if Jammed(s) then Tick(s).panicked else Inv(Tick(s)) && Current(Tick(s)) == Current(Refresh(s))
  {
    hide Inv, Jammed, Rung, Ticked, Current;
    InvShape(s);
    if Jammed(s) {
      TickJams(s);
    } else {
      HalfwayKeeps(s);
      TickAlarmsKeep(Halfway(s), s.size);
    }
  }

  /** Columns of a tick that does not panic, task by task. */
  lemma TickColumns(s: State, t: nat)
    requires Inv(s) && !Jammed(s) && t < s.N()
    ensures var q, due := Tick(s), DueTo(s.delays, t, s.size);
            && q.st[t] == (if due || Misfired(s, t) then Ready else s.st[t])
            && q.ret[t] == (if due then Some(Timeout) else s.ret[t])
  {
    hide Inv, Jammed, Current, HitBy, DueTo;
    InvShape(s);
    HalfwayKeeps(s);
    TickAlarmsKeep(Halfway(s), s.size);
    MisfiredHalfway(s, t);
    hide Halfway, TickAlarms, Refresh, TickJobs, RungSlots, AgedTo;
  }

  lemma HeldDue(s: State, t: nat)
    requires WF(s)
    ensures Held(s, t) && DueTo(s.delays, t, s.size) ==> Jammed(s)
  {
    if Held(s, t) && DueTo(s.delays, t, s.size) {
      var j :| 0 <= j < s.size && Due(s.delays[j], t);
      assert Jams(s, j);
    }
  }

  /** A tick that does not panic holds exactly the tasks held before and those a misfire hits. */
  lemma TickHeld(s: State, t: nat)
    requires Inv(s) && !Jammed(s) && t < s.N()
    ensures Held(Tick(s), t) <==> Held(s, t) || Misfired(s, t)
  {
    hide Tick;
    TickColumns(s, t);
    HeldDue(s, t);
    if Misfired(s, t) {
      var j :| 0 <= j < s.size && Hits(s, j) && s.alarms[j].handler == t;
      assert s.st[t] == WaitForEvent && Parked(s.st[t]);
    }
  }
}
