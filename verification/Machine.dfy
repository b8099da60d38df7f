/** The kernel as it runs: tables updated in place by the scheduler, the delay manager, the task
    manager and the system call gates.

Every method is proved against its specification in `KernelSpec`, on every well-formed state.
A panic does not return in the kernel; here it sets `panicked` and every caller returns at
once. `Agrees` is that contract: the method panics exactly when its specification does, and
otherwise leaves exactly the specified state.
*/
module Machine {
  import opened Slots
  import opened Rings
  import opened Exchange
  import opened IpcGraph
  import opened Rrmq
  import opened KernelSpec
  import opened Invariants
  import opened GateProofs
  import opened TickProofs
  import opened Protocol

  /** The still ready running job joins the backed jobset. */
  function Requeue(s: State, t: nat): (q: State)
    requires WF(s)
    ensures WF(q) && q.meta == s.meta && q.size == s.size
  {
    var b := s.sched.Backed();
    var accepted := b.num <= s.size && t < s.N() && s.st[t] == Ready && !Holds(b.cells, t);
    s.(sched := if accepted then s.sched.WithBacked(Insert(b, t, s.meta[t])) else s.sched,
       panicked := s.panicked || b.num > s.size)
  }

  /** The running job has left the active jobset, to the backed one if it is still ready. */
  function Retired(s: State): (q: State)
    requires WF(s) && s.sched.current.Some?
    ensures WF(q) && q.meta == s.meta && q.size == s.size
  {
    s.(sched := if ElectPanics(s) then s.sched else Retire(s.sched, s.meta, s.st[Current(s)] == Ready),
       panicked := s.panicked || ElectPanics(s))
  }

  function ClearRunner(sc: Sched): Sched
    requires sc.current.Some? && sc.current.value < |sc.Active().cells|
  {
    var a, i := sc.Active(), sc.current.value;
    sc.WithActive(Jobset(a.num - 1, a.cells[i := a.cells[i].(active := false)]))
  }

  lemma RetiredIs(s: State)
    requires WF(s) && s.sched.current.Some? && !s.panicked
    ensures var q := if s.st[Current(s)] == Ready then Requeue(s, Current(s)) else s;
            && q.sched.current == s.sched.current
            && Retired(s) == if q.panicked then q else q.(sched := ClearRunner(q.sched))
  {
  }

  /** The three things that can happen to a delayed job. */
  lemma TickJobCases(s: State, i: nat)
    requires WF(s) && i < s.size
    ensures var c := s.delays[i]; var h := c.handler;
            if !c.active then TickJob(s, i) == s
            else if !Expires(c.data.remaining) then TickJob(s, i) == s.(delays := s.delays[i := Aged(c)])
            else if !Waiting(s.st[h]) then TickJob(s, i) == Panic(s)
            else
              var q := Schedule(s.(st := s.st[h := Ready], ret := s.ret[h := Some(Timeout)]), h);
              q.delays == s.delays && TickJob(s, i) == q.(delays := s.delays[i := Aged(c)])
  {
    assert s.delays[i := s.delays[i]] == s.delays;
  }

  /** Storing the signal before or after the wake-up makes no difference. */
  lemma PushCases(s: State, sig: nat, src: nat, dst: nat)
    requires WF(s) && src < s.N()
    ensures !SigFree(s, src, dst) ==> PushSig(s, sig, src, dst) == s
    ensures SigFree(s, src, dst) ==>
              var p := StoreSig(s, sig, src, dst);
              PushSig(s, sig, src, dst) ==
              if s.st[dst] == WaitForEvent then Schedule(SetState(p, dst, Ready), dst) else p
  {
  }

  lemma AlarmPushes(s: State, sig: nat, t: nat)
    requires WF(s) && t < s.N()
    ensures var p := PushSig(s, sig, t, t);
            p == s.(sigs := p.sigs, st := p.st, sched := p.sched, panicked := p.panicked)
  {
  }

  /** The first `len` bytes of a sender's area. */
  function PayloadBytes(area: seq<byte>, len: nat): (data: seq<byte>)
    requires |area| == AREA_LEN
    ensures |data| <= MAX_PAYLOAD
  {
    area[..if len <= MAX_PAYLOAD then len else MAX_PAYLOAD]
  }

  lemma PayloadIs(s: State, t: nat, src: nat)
    requires WF(s) && t < s.N() && src < s.N()
    ensures Payload(s, t, src) == PayloadBytes(s.exch[src], s.ipcs[t][src] % 256)
  {
  }

  /** A message has been copied and its sender released; the receiver's return value is to come. */
  function LoadedIpc(s: State, t: nat, src: nat): (q: State)
    requires WF(s) && t < s.N() && src < s.N()
    ensures WF(q) && q.meta == s.meta && q.size == s.size
  {
    var w := WriteTo(s, t, 1, s.meta[src].handle, Payload(s, t, src));
    var r := Schedule(SetState(SetRet(w, src, Ok), src, Ready), src);
    r.(ipcs := Put(r.ipcs, t, src, 0))
  }

  lemma Rows(s: State)
    requires WF(s)
    ensures Square(s.ipcs) && |s.ipcs| == s.N() && s.size > 0
  {
  }

  lemma PanicShape(s: State)
    requires WF(s)
    ensures WF(Panic(s))
  {
  }

  lemma SameRunner(s: State, q: State)
    requires WF(s) && WF(q) && q.sched == s.sched && q.meta == s.meta
    ensures Current(q) == Current(s)
  {
  }

  lemma ElectPanicStays(s: State)
    requires WF(s) && s.panicked
    ensures Elect(s).panicked
  {
  }

  lemma SetRetPanicStays(s: State, t: nat, r: Status)
    requires WF(s) && t < s.N() && s.panicked
    ensures SetRet(s, t, r).panicked
  {
  }

  lemma SignalPanicStays(p: State, target: nat, was: JobState, cur: nat)
    requires WF(p) && target < p.N() && cur < p.N() && p.panicked
    ensures SetRet(WakeIfWaiting(p, target, was), cur, Ok).panicked
  {
  }

  lemma TakeIs(s: State, t: nat, src: nat)
    requires WF(s) && t < s.N() && src < s.N()
    ensures TakeIpc(s, t, src) == SetRet(LoadedIpc(s, t, src), t, Ok)
  {
  }

  lemma ScheduleAccepts(s: State, t: nat)
    requires WF(s)
    ensures Schedule(s, t) == s.(sched := Schedule(s, t).sched, panicked := Schedule(s, t).panicked)
    ensures s.sched.Active().num <= s.size && !CanSchedule(s, t) ==> Schedule(s, t) == s
    ensures Schedule(s, t).panicked == (s.panicked || s.sched.Active().num > s.size)
  {
  }

  lemma FirstFreeIs<D>(cells: seq<Slot<D>>, i: nat)
    requires i <= |cells| && (forall j :: 0 <= j < i ==> cells[j].active) && (i < |cells| ==> !cells[i].active)
    ensures FirstFree(cells) == i
  {
  }

  lemma FirstOfIs<D>(cells: seq<Slot<D>>, t: nat, i: nat)
    requires i <= |cells| && (forall j :: 0 <= j < i ==> !IsFor(cells[j], t)) && (i < |cells| ==> IsFor(cells[i], t))
    ensures FirstOf(cells, t) == i
  {
  }

  class Kernel {
    const size: nat
    const meta: seq<Meta>
    // task table
    var st: seq<JobState>
    var ret: seq<Option<Status>>
    var code: seq<nat>
    var ipcs: seq<seq<nat>>
    var sigs: seq<seq<nat>>
    var ints: seq<Ring<nat>>
    var dmas: seq<Ring<DmaEvent>>
    var exch: seq<seq<byte>>
    // scheduler
    var primary: Jobset
    var secondary: Jobset
    var primaryActive: bool
    var current: Option<nat>
    // delay manager
    var delays: seq<DelayCell>
    var alarms: seq<AlarmCell>
    var jiffies: nat
    var panicked: bool
    // columns of the model only
    ghost var started: seq<bool>
    ghost var mask: seq<bv8>
    ghost var sentTo: seq<nat>

    ghost function S(): State
      reads this
    {
      State(size, meta, st, ret, code, ipcs, sigs, ints, dmas, exch,
            Sched(primary, secondary, primaryActive, current), delays, alarms, jiffies, panicked, started, mask, sentTo)
    }

    ghost predicate Valid()
      reads this
    {
      WF(S())
    }

    /** The state is `q`, unless both have panicked. */
    ghost predicate Agrees(q: State)
      reads this
    {
      panicked == q.panicked && (!panicked ==> S() == q)
    }

    /** All tasks READY and nothing pending, as after the managers' initialisation. */
    constructor (capacity: nat, tasks: seq<Meta>)
      requires 1 <= |tasks| <= capacity
      ensures Valid() && S() == Zeroed(capacity, tasks)
    {
      var n := |tasks|;
      size, meta := capacity, tasks;
      st, ret, code := seq(n, _ => Ready), seq(n, _ => None), seq(n, _ => 0);
      ipcs := seq(n, _ => seq(capacity, _ => 0));
      sigs := seq(n, _ => seq(capacity, _ => 0));
      ints := seq(n, _ => Ring(seq(DEPTH, _ => 0), 0, 0));
      dmas := seq(n, _ => Ring(seq(DEPTH, _ => DmaEvent(0, 0)), 0, 0));
      exch := seq(n, _ => seq(AREA_LEN, _ => 0));
      var js := Jobset(0, seq(capacity, _ => Slot(false, 0, JobData(0, 0))));
      primary, secondary, primaryActive, current := js, js, true, None;
      delays := seq(capacity, _ => Slot(false, 0, DelayData(0, 0)));
      alarms := seq(capacity, _ => Slot(false, 0, AlarmData(0, 0, 0, false)));
      jiffies, panicked := 0, false;
      started, mask, sentTo := seq(n, _ => false), seq(n, _ => 0), seq(n, _ => 0);
    }

    // ---- Scheduler --------------------------------------------------------------------------------

    method GetCurrent() returns (t: nat)
      requires Valid()
      ensures t == Current(S())
    {
      t := |meta| - 1;
      if current.Some? {
        t := if primaryActive then primary.cells[current.value].handler else secondary.cells[current.value].handler;
      }
    }

    static method NotInJobset(t: nat, js: Jobset) returns (absent: bool)
      ensures absent <==> !Holds(js.cells, t)
    {
      absent := true;
      for i := 0 to |js.cells|
        invariant absent && forall j :: 0 <= j < i ==> !IsFor(js.cells[j], t)
      {
        if js.cells[i].active && js.cells[i].handler == t {
          assert IsFor(js.cells[i], t);
          return false;
        }
      }
    }

    /** The jobset with task `t` in its first empty cell. */
    static method Filled(js: Jobset, t: nat, m: Meta) returns (r: Jobset)
      requires |js.cells| > 0
      ensures r == Insert(js, t, m)
    {
      var cell, i := 0, 0;
      while i < |js.cells|
        invariant 0 <= i <= |js.cells| && cell == 0
        invariant forall j :: 0 <= j < i ==> js.cells[j].active
      {
        if !js.cells[i].active {
          cell := i;
          break;
        }
        i := i + 1;
      }
      FirstFreeIs(js.cells, i);
      r := Jobset(js.num + 1, js.cells[cell := Slot(true, t, JobData(m.priority, m.quantum))]);
    }

    method AddToJobset(t: nat, toActive: bool) returns (ok: bool)
      requires Valid() && !panicked
      modifies `primary, `secondary, `panicked
      ensures Valid() && Agrees(if toActive then Schedule(old(S()), t) else Requeue(old(S()), t))
      ensures toActive && !panicked ==> (ok <==> CanSchedule(old(S()), t))
    {
      var inPrimary := toActive == primaryActive;
      var js := if inPrimary then primary else secondary;
      ok := false;
      if js.num > size {
        panicked := true;
        return;
      }
      if t >= |meta| || st[t] != Ready {
        return;
      }
      var absent := NotInJobset(t, js);
      if !absent {
        return;
      }
      js := Filled(js, t, meta[t]);
      if inPrimary {
        primary := js;
      } else {
        secondary := js;
      }
      ok := true;
    }

    /** Index of the active cell of highest priority, the first among equals. */
    static method Pick(cells: seq<Cell>) returns (next: Option<nat>)
      ensures next == Best(cells)
    {
      next := None;
      for i := 0 to |cells|
        invariant next == BestTo(cells, i)
      {
        if cells[i].active {
          if next.None? {
            next := Some(i);
          }
          if cells[i].data.priority > cells[next.value].data.priority {
            next := Some(i);
          }
        }
      }
    }

    /** The running job's cell is freed. */
    method ClearRunning()
      requires Valid() && current.Some?
      modifies `primary, `secondary
      ensures Valid() && S() == old(S()).(sched := ClearRunner(old(S()).sched))
    {
      var i := current.value;
      if primaryActive {
        primary := Jobset(primary.num - 1, primary.cells[i := primary.cells[i].(active := false)]);
      } else {
        secondary := Jobset(secondary.num - 1, secondary.cells[i := secondary.cells[i].(active := false)]);
      }
    }

    /** The running job leaves the active jobset. */
    method SchedRetire()
      requires Valid() && !panicked && current.Some?
      modifies `primary, `secondary, `panicked
      ensures Valid() && Agrees(Retired(old(S())))
    {
      hide Requeue, Retired, ClearRunner;
      RetiredIs(S());
      var t := GetCurrent();
      if st[t] == Ready {
        var _ := AddToJobset(t, false);
        if panicked {
          return;
        }
      }
      ClearRunning();
    }

    /** The next running job is chosen, from the other jobset when the active one is empty. */
    method SchedChoose()
      requires Valid()
      modifies `primaryActive, `current
      ensures Valid() && S() == old(S()).(sched := Choose(old(S()).sched))
    {
      if (if primaryActive then primary.num else secondary.num) == 0 {
        primaryActive := !primaryActive;
      }
      var js := if primaryActive then primary else secondary;
      if js.num == 0 {
        current := None;
      } else {
        current := Pick(js.cells);
      }
    }

    method SchedElect()
      requires Valid() && !panicked
      modifies `primary, `secondary, `primaryActive, `current, `panicked
      ensures Valid() && Agrees(Elect(old(S())))
    {
      if current.Some? {
        SchedRetire();
        if panicked {
          return;
        }
      }
      SchedChoose();
    }

    method BurnRunning()
      requires Valid() && current.Some?
      modifies `primary, `secondary
      ensures Valid() && S() == old(S()).(sched := BurnQuantum(old(S()).sched))
    {
      var i := current.value;
      if primaryActive {
        var c := primary.cells[i];
        primary := primary.(cells := primary.cells[i := c.(data := c.data.(quantum := Dec32(c.data.quantum)))]);
      } else {
        var c := secondary.cells[i];
        secondary := secondary.(cells := secondary.cells[i := c.(data := c.data.(quantum := Dec32(c.data.quantum)))]);
      }
    }

    method SchedRefresh()
      requires Valid() && !panicked
      modifies `primary, `secondary, `primaryActive, `current, `panicked
      ensures Valid() && Agrees(Refresh(old(S())))
    {
      if current.Some? {
        BurnRunning();
        var c := if primaryActive then primary.cells[current.value] else secondary.cells[current.value];
        if c.data.quantum == 0 {
          SchedElect();
        }
      }
    }

    // ---- Delay manager -----------------------------------------------------------------------------

    method DelayAddJob(t: nat, ms: nat) returns (ok: bool)
      requires Valid() && t < |meta|
      modifies `delays
      ensures Valid() && S() == DelayAdd(old(S()), t, ms) && (ok <==> DelayHasRoom(old(S())))
    {
      var i := 0;
      while i < |delays|
        invariant 0 <= i <= |delays| && delays == old(delays)
        invariant forall j :: 0 <= j < i ==> delays[j].active
      {
        if !delays[i].active {
          FirstFreeIs(delays, i);
          delays := delays[i := Slot(true, t, DelayData(ms, ms))];
          return true;
        }
        i := i + 1;
      }
      FirstFreeIs(delays, i);
      ok := false;
    }

    method DelayDelJob(t: nat) returns (ok: bool)
      requires Valid()
      modifies `delays
      ensures Valid() && S() == DelayDel(old(S()), t) && (ok <==> FirstOf(old(delays), t) < |old(delays)|)
    {
      var i := 0;
      while i < |delays|
        invariant 0 <= i <= |delays| && delays == old(delays)
        invariant forall j :: 0 <= j < i ==> !IsFor(delays[j], t)
      {
        if delays[i].active && delays[i].handler == t {
          FirstOfIs(delays, t, i);
          delays := delays[i := delays[i].(active := false)];
          return true;
        }
        i := i + 1;
      }
      FirstOfIs(delays, t, i);
      ok := false;
    }

    method DelayAddSignal(t: nat, ms: nat, sig: nat, periodic: bool) returns (ok: bool)
      requires Valid() && t < |meta|
      modifies `alarms
      ensures Valid() && (ok <==> AlarmHasRoom(old(S())))
      ensures S() == if ok then
                old(S()).(alarms := old(alarms)[FirstFree(old(alarms)) :=
                                                  Slot(true, t, AlarmData(sig, ms, ms, periodic))])
              else old(S())
    {
      var i := 0;
      while i < |alarms|
        invariant 0 <= i <= |alarms| && alarms == old(alarms)
        invariant forall j :: 0 <= j < i ==> alarms[j].active
      {
        if !alarms[i].active {
          FirstFreeIs(alarms, i);
          alarms := alarms[i := Slot(true, t, AlarmData(sig, ms, ms, periodic))];
          return true;
        }
        i := i + 1;
      }
      FirstFreeIs(alarms, i);
      ok := false;
    }

    method DelayDelSignal(t: nat, ms: nat) returns (ok: bool)
      requires Valid()
      modifies `alarms
      ensures Valid() && (ok <==> FirstAlarm(old(alarms), t, ms, 0) < |old(alarms)|)
      ensures S() == if ok then
                var i := FirstAlarm(old(alarms), t, ms, 0);
                old(S()).(alarms := old(alarms)[i := old(alarms)[i].(active := false)])
              else old(S())
    {
      var i := 0;
      while i < |alarms|
        invariant 0 <= i <= |alarms| && alarms == old(alarms)
        invariant forall j :: 0 <= j < i ==> !(IsFor(alarms[j], t) && alarms[j].data.wait == ms)
      {
        if alarms[i].active && alarms[i].handler == t && alarms[i].data.wait == ms {
          assert FirstAlarm(alarms, t, ms, 0) == i;
          alarms := alarms[i := alarms[i].(active := false)];
          return true;
        }
        i := i + 1;
      }
      ok := false;
    }

    /** One delayed job: count down, or make its task ready. */
    method TickJobCell(i: nat)
      requires Valid() && !panicked && i < size
      modifies `st, `ret, `primary, `secondary, `delays, `panicked
      ensures Valid() && Agrees(TickJob(old(S()), i))
    {
      hide TickJob, Schedule, Requeue;
      TickJobCases(S(), i);
      var c := delays[i];
      if c.active {
        if TICK_MS < c.data.remaining {
          delays := delays[i := c.(data := c.data.(remaining := c.data.remaining - TICK_MS))];
        } else {
          if st[c.handler] != Sleeping && st[c.handler] != SleepingDeep && st[c.handler] != WaitForEvent {
            panicked := true;
            return;
          }
          st := st[c.handler := Ready];
          ret := ret[c.handler := Some(Timeout)];
          var _ := AddToJobset(c.handler, true);
          if panicked {
            return;
          }
          delays := delays[i := Slot(false, c.handler, c.data.(remaining := 0))];
        }
      }
    }

    /** One delayed signal: count down, or store it and rearm or clear the alarm. */
    method TickAlarmCell(i: nat)
      requires Valid() && !panicked && i < size
      modifies `st, `sigs, `primary, `secondary, `alarms, `panicked
      ensures Valid() && Agrees(TickAlarm(old(S()), i))
    {
      hide PushSig;
      var c := alarms[i];
      if c.active {
        if TICK_MS < c.data.remaining {
          alarms := alarms[i := c.(data := c.data.(remaining := c.data.remaining - TICK_MS))];
        } else {
          AlarmPushes(S(), c.data.sig, c.handler);
          var _ := PushSigEvent(c.data.sig, c.handler, c.handler);
          if panicked {
            return;
          }
          if c.data.periodic {
            alarms := alarms[i := c.(data := c.data.(remaining := c.data.wait))];
          } else {
            alarms := alarms[i := c.(active := false, data := c.data.(remaining := 0))];
          }
        }
      } else {
        assert alarms[i := AgedAlarm(c)] == alarms;
      }
    }

    method TickJobsLoop()
      requires Valid() && !panicked
      modifies `st, `ret, `primary, `secondary, `delays, `panicked
      ensures Valid() && Agrees(TickJobs(old(S()), size))
    {
      hide TickJob, WF;
      ghost var s := S();
      for i := 0 to size
        invariant Valid() && !panicked && S() == TickJobs(s, i)
      {
        TickJobCell(i);
        if panicked {
          TickJobsPanic(s, i + 1, size);
          return;
        }
      }
    }

    method TickAlarmsLoop()
      requires Valid() && !panicked
      modifies `st, `sigs, `primary, `secondary, `alarms, `panicked
      ensures Valid() && Agrees(TickAlarms(old(S()), size))
    {
      hide TickAlarm, WF;
      ghost var s := S();
      for i := 0 to size
        invariant Valid() && !panicked && S() == TickAlarms(s, i)
      {
        TickAlarmCell(i);
        if panicked {
          TickAlarmsPanic(s, i + 1, size);
          return;
        }
      }
    }

    /** The system tick. */
    method SystemTick()
      requires Valid() && !panicked
      modifies this
      ensures Valid() && Agrees(Tick(old(S())))
    {
      hide Refresh, TickJob, TickAlarm, WF;
      ghost var s := Clock(S());
      jiffies := jiffies + 1;
      SchedRefresh();
      if panicked {
        TickJobsPanic(Refresh(s), 0, size);
        TickAlarmsPanic(TickJobs(Refresh(s), size), 0, size);
        return;
      }
      TickJobsLoop();
      if panicked {
        TickAlarmsPanic(TickJobs(Refresh(s), size), 0, size);
        return;
      }
      TickAlarmsLoop();
    }

    // ---- Task manager: events ------------------------------------------------------------------------

    method PushSigEvent(sig: nat, src: nat, dst: nat) returns (ok: bool)
      requires Valid() && !panicked && src < |meta|
      modifies `st, `sigs, `primary, `secondary, `panicked
      ensures Valid() && Agrees(PushSig(old(S()), sig, src, dst))
      ensures ok <==> SigFree(old(S()), src, dst)
    {
      hide PushSig, Schedule, Requeue;
      PushCases(S(), sig, src, dst);
      if dst >= |meta| || sigs[dst][src] != 0 {
        return false;
      }
      ok := true;
      sigs := Put(sigs, dst, src, sig);
      if st[dst] == WaitForEvent {
        st := st[dst := Ready];
        var _ := AddToJobset(dst, true);
      }
    }

    /** First of the first slots that holds something for the caller, or the number of tasks. */
    static method FindPending(slots: seq<nat>, n: nat) returns (k: nat)
      requires n <= |slots|
      ensures k == FirstPending(slots, n, 0)
    {
      k := 0;
      while k < n
        invariant 0 <= k <= n && FirstPending(slots, n, 0) == FirstPending(slots, n, k)
      {
        if slots[k] % 256 > 0 {
          return;
        }
        k := k + 1;
      }
    }

    method LoadSigEvent(t: nat) returns (src: nat, sig: nat)
      requires Valid() && t < |meta|
      modifies `sigs
      ensures Valid() && src == FirstPending(old(sigs)[t], |meta|, 0)
      ensures src < |meta| ==> sig == old(sigs)[t][src] % 256 && S() == StoreSig(old(S()), 0, src, t)
      ensures src == |meta| ==> S() == old(S())
    {
      sig := 0;
      src := FindPending(sigs[t], |meta|);
      if src < |meta| {
        sig := sigs[t][src] % 256;
        sigs := Put(sigs, t, src, 0);
      }
    }

    method LoadIntEvent(t: nat) returns (found: bool, irqn: nat)
      requires Valid() && t < |meta|
      modifies `ints
      ensures Valid() && (found <==> !IsEmpty(old(ints)[t]))
      ensures found ==> irqn == old(ints)[t].buf[old(ints)[t].bottom]
                        && S() == old(S()).(ints := old(ints)[t := PopClear(old(ints)[t])])
      ensures !found ==> S() == old(S())
    {
      var r := ints[t];
      found, irqn := r.head != r.bottom, 0;
      if found {
        irqn := r.buf[r.bottom];
        var bottom := (r.bottom + 1) % DEPTH;
        ints := ints[t := r.(bottom := bottom, buf := r.buf[bottom := 0])];
      }
    }

    method LoadDmaEvent(t: nat) returns (found: bool, e: DmaEvent)
      requires Valid() && t < |meta|
      modifies `dmas
      ensures Valid() && (found <==> !IsEmpty(old(dmas)[t]))
      ensures found ==> e == old(dmas)[t].buf[old(dmas)[t].bottom]
                        && S() == old(S()).(dmas := old(dmas)[t := Pop(old(dmas)[t])])
      ensures !found ==> S() == old(S())
    {
      var r := dmas[t];
      found, e := r.head != r.bottom, r.buf[r.bottom];
      if found {
        dmas := dmas[t := r.(bottom := (r.bottom + 1) % DEPTH)];
      }
    }

    /** Header and payload written into a task's exchange area. */
    method Populate(t: nat, kind: byte, source: nat, data: seq<byte>)
      requires Valid() && t < |meta| && |data| <= MAX_PAYLOAD
      modifies `exch
      ensures Valid() && S() == WriteTo(old(S()), t, kind, source, data)
    {
      exch := exch[t := Header(kind, |data|, source) + data + exch[t][HEADER_LEN + |data|..]];
    }

    method SetReturn(t: nat, r: Status)
      requires Valid() && t < |meta|
      modifies `ret
      ensures Valid() && S() == SetRet(old(S()), t, r)
    {
      ret := ret[t := Some(r)];
    }

    method SetTaskState(t: nat, j: JobState)
      requires Valid() && t < |meta|
      modifies `st
      ensures Valid() && S() == SetState(old(S()), t, j)
    {
      st := st[t := j];
    }

    /** A task is given its return value, made ready and handed to the scheduler. */
    method MakeReady(t: nat, r: Status)
      requires Valid() && !panicked && t < |meta|
      modifies `st, `ret, `primary, `secondary, `panicked
      ensures Valid() && Agrees(Schedule(SetState(SetRet(old(S()), t, r), t, Ready), t))
    {
      hide WF, Schedule, Requeue;
      SetReturn(t, r);
      SetTaskState(t, Ready);
      var _ := AddToJobset(t, true);
    }

    /** Boot: every user task that starts automatically is scheduled. */
    method StartTasks(auto: seq<bool>)
      requires Valid() && S() == Zeroed(size, meta) && |auto| == |meta| && MetaOk(meta)
      modifies `primary, `secondary, `panicked, `started
      ensures Valid() && !panicked && S() == Boot(size, meta, auto, |meta| - 1) && Calm(S())
    {
      assert 1 <= |meta| <= size && !panicked && S() == Boot(size, meta, auto, 0);
      hide WF, Schedule, Requeue, Zeroed, Inv, StartedTo;
      for t := 0 to |meta| - 1
        invariant Valid() && !panicked && S() == Boot(size, meta, auto, t)
      {
        BootInv(size, meta, auto, t + 1);
        InvCalm(Boot(size, meta, auto, t + 1));
        if auto[t] {
          var _ := AddToJobset(t, true);
          ScheduleAccepts(Boot(size, meta, auto, t), t);
          NoteStarted(t);
        }
      }
      BootInv(size, meta, auto, |meta| - 1);
    }

    /** A task leaves the delay queue and becomes ready. */
    method Awake(t: nat, r: Status)
      requires Valid() && !panicked && t < |meta|
      modifies `st, `ret, `delays, `primary, `secondary, `panicked
      ensures Valid() && Agrees(Wake(old(S()), t, r))
    {
      hide WF, Schedule, DelayDel;
      var _ := DelayDelJob(t);
      MakeReady(t, r);
    }

    method AwakeIfWaiting(t: nat, was: JobState)
      requires Valid() && !panicked && t < |meta|
      modifies `st, `ret, `delays, `primary, `secondary, `panicked
      ensures Valid() && Agrees(WakeIfWaiting(old(S()), t, was))
    {
      hide Wake;
      if was == Sleeping || was == WaitForEvent {
        Awake(t, Intr);
      }
    }

    method ClearSlot(t: nat, src: nat)
      requires Valid() && t < |meta| && src < |meta|
      modifies `ipcs
      ensures Valid() && S() == old(S()).(ipcs := Put(old(ipcs), t, src, 0))
    {
      ipcs := Put(ipcs, t, src, 0);
    }

    /** The message is copied into the receiver's area, its sender released and its slot cleared. */
    method Deliver(t: nat, src: nat)
      requires Valid() && !panicked && t < |meta| && src < |meta|
      modifies `st, `ret, `ipcs, `exch, `primary, `secondary, `panicked
      ensures Valid() && Agrees(LoadedIpc(old(S()), t, src))
    {
      PayloadIs(S(), t, src);
      var len := ipcs[t][src] % 256;
      var data := PayloadBytes(exch[src], len);
      hide WF, Schedule, WriteTo, Payload, PayloadBytes;
      Populate(t, 1, meta[src].handle, data);
      MakeReady(src, Ok);
      if !panicked {
        ClearSlot(t, src);
      }
    }

    /** Delivers the first pending message, if there is one. */
    method LoadIpcEvent(t: nat) returns (found: bool)
      requires Valid() && !panicked && t < |meta|
      modifies `st, `ret, `ipcs, `exch, `primary, `secondary, `panicked
      ensures Valid() && (found <==> FirstPending(old(ipcs)[t], |meta|, 0) < |meta|)
      ensures Agrees(if found then LoadedIpc(old(S()), t, FirstPending(old(ipcs)[t], |meta|, 0)) else old(S()))
    {
      hide LoadedIpc;
      var src := FindPending(ipcs[t], |meta|);
      found := src < |meta|;
      if found {
        Deliver(t, src);
      }
    }

    // ---- System call gates ---------------------------------------------------------------------------

    method PushIpcEvent(len: nat, src: nat, dst: nat)
      requires Valid() && src < |meta| && dst < |meta|
      modifies `ipcs
      ensures Valid() && S() == old(S()).(ipcs := Put(old(ipcs), dst, src, len))
    {
      ipcs := Put(ipcs, dst, src, len);
    }

    method StateOf(t: nat) returns (j: JobState)
      requires Valid() && t < |meta|
      ensures j == S().st[t]
    {
      j := st[t];
    }

    /** The caller is blocked on its receiver. */
    method BlockOn(t: nat, target: nat)
      requires Valid() && t < |meta|
      modifies `st, `ret, `sentTo
      ensures Valid()
      ensures S() == SetRet(SetState(old(S()), t, IpcSendBlocked), t, NonSense).(sentTo := old(sentTo)[t := target])
    {
      st := st[t := IpcSendBlocked];
      ret := ret[t := Some(NonSense)];
      sentTo := sentTo[t := target];
    }

    /** An accepted message to another task: block the sender, wake the receiver, elect. */
    method Post(cur: nat, target: nat)
      requires Valid() && !panicked && cur == Current(S()) && target < |meta|
      modifies this
      ensures Valid()
      ensures var b := SetRet(SetState(old(S()), cur, IpcSendBlocked), cur, NonSense)
                         .(sentTo := old(sentTo)[cur := target]);
              Agrees(Elect(WakeIfWaiting(b, target, b.st[target])))
    {
      hide WF, SetRet, SetState, WakeIfWaiting, Elect, Current;
      BlockOn(cur, target);
      ghost var b := S();
      var was := StateOf(target);
      AwakeIfWaiting(target, was);
      if panicked {
        ElectPanicStays(WakeIfWaiting(b, target, was));
        return;
      }
      SchedElect();
    }

    method GateSendIpc(target: nat, len: nat)
      requires Valid() && !panicked
      modifies this
      ensures Valid() && Agrees(SendIpc(old(S()), target, len))
    {
      hide WF, SetRet, SetState, WakeIfWaiting, Elect, Detect, Current;
      var cur := GetCurrent();
      if len > MAX_PAYLOAD {
        SetReturn(cur, Invalid);
        return;
      }
      Rows(S());
      var verdict := IpcGeneratesDeadlock(ipcs, size, cur, target);
      if verdict == Overflow {
        panicked := true;
        PanicShape(old(S()));
        return;
      }
      if verdict == Deadlock {
        SetReturn(cur, DeadLk);
        return;
      }
      if target >= |meta| {
        SetReturn(cur, Invalid);
        return;
      }
      PushIpcEvent(len, cur, target);
      SameRunner(old(S()), S());
      if cur == target {
        SetReturn(cur, Invalid);
        return;
      }
      Post(cur, target);
    }

    method GateSendSignal(target: nat, sig: nat)
      requires Valid() && !panicked
      modifies this
      ensures Valid() && Agrees(SendSignal(old(S()), target, sig))
    {
      hide WF, SetRet, PushSig, WakeIfWaiting, Current;
      var cur := GetCurrent();
      if cur == target || sig < SIGNAL_ABORT || sig > SIGNAL_USR2 || target >= |meta| {
        SetReturn(cur, Invalid);
        return;
      }
      var was := StateOf(target);
      var stored := PushSigEvent(sig, cur, target);
      if !stored {
        PushCases(old(S()), sig, cur, target);
        SetReturn(cur, Busy);
        return;
      }
      ghost var p := PushSig(old(S()), sig, cur, target);
      if panicked {
        SignalPanicStays(p, target, was, cur);
        return;
      }
      AwakeIfWaiting(target, was);
      if panicked {
        SetRetPanicStays(WakeIfWaiting(p, target, was), cur, Ok);
        return;
      }
      SetReturn(cur, Ok);
    }

    /** Nothing to deliver: the caller waits, with a timeout if it asked for one. */
    method Park(cur: nat, wanted: bv8, timeout: int)
      requires Valid() && !panicked && cur < |meta|
      modifies this
      ensures Valid()
      ensures var d := if timeout > 0 then DelayAdd(old(S()), cur, timeout) else old(S());
              Agrees(Elect(SetRet(SetState(d, cur, WaitForEvent), cur, NonSense).(mask := old(mask)[cur := wanted])))
    {
      hide WF, DelayAdd, Elect;
      if timeout > 0 {
        var _ := DelayAddJob(cur, timeout);
      }
      SetTaskState(cur, WaitForEvent);
      SetReturn(cur, NonSense);
      NoteMask(cur, wanted);
      SchedElect();
    }

    ghost method NoteMask(t: nat, wanted: bv8)
      requires Valid() && t < |meta|
      modifies `mask
      ensures Valid() && S() == old(S()).(mask := old(mask)[t := wanted])
    {
      mask := mask[t := wanted];
    }

    method TrySignal(cur: nat) returns (done: bool)
      requires Valid() && cur < |meta|
      modifies `sigs, `exch, `ret
      ensures Valid() && (done <==> FirstPending(old(sigs)[cur], |meta|, 0) < |meta|)
      ensures S() == if done then TakeSig(old(S()), cur, FirstPending(old(sigs)[cur], |meta|, 0)) else old(S())
    {
      hide WF, WriteTo, StoreSig, SetRet, Le32;
      var src, sig := LoadSigEvent(cur);
      done := src < |meta|;
      if done {
        Populate(cur, 2, meta[src].handle, Le32(sig));
        SetReturn(cur, Ok);
      }
    }

    method TryInterrupt(cur: nat, devh: nat) returns (done: bool)
      requires Valid() && cur < |meta|
      modifies `ints, `exch, `ret
      ensures Valid() && (done <==> !IsEmpty(old(ints)[cur]))
      ensures S() == if done then TakeInt(old(S()), cur, devh) else old(S())
    {
      hide WriteTo, SetRet, Le32, PopClear;
      var irqn: nat;
      done, irqn := LoadIntEvent(cur);
      if done {
        Populate(cur, 4, devh, Le32(irqn));
        SetReturn(cur, Ok);
      }
    }

    method TryDma(cur: nat) returns (done: bool)
      requires Valid() && cur < |meta|
      modifies `dmas, `exch, `ret
      ensures Valid() && (done <==> !IsEmpty(old(dmas)[cur]))
      ensures S() == if done then TakeDma(old(S()), cur) else old(S())
    {
      hide WriteTo, SetRet, Pop;
      var e: DmaEvent;
      done, e := LoadDmaEvent(cur);
      if done {
        Populate(cur, 8, e.stream, [e.event % 256]);
        SetReturn(cur, Ok);
      }
    }

    method TryIpc(cur: nat) returns (done: bool)
      requires Valid() && !panicked && cur < |meta|
      modifies this
      ensures Valid() && (done <==> FirstPending(old(ipcs)[cur], |meta|, 0) < |meta|)
      ensures Agrees(if done then TakeIpc(old(S()), cur, FirstPending(old(ipcs)[cur], |meta|, 0)) else old(S()))
    {
      ghost var s, src := S(), FirstPending(ipcs[cur], |meta|, 0);
      hide WF, LoadedIpc, SetRet, TakeIpc;
      done := LoadIpcEvent(cur);
      if done {
        TakeIs(s, cur, src);
        if panicked {
          SetRetPanicStays(LoadedIpc(s, cur, src), cur, Ok);
        } else {
          SetReturn(cur, Ok);
        }
      }
    }

    method GateWaitForEvent(wanted: bv8, timeout: int, devh: nat)
      requires Valid() && !panicked
      modifies this
      ensures Valid() && Agrees(WaitEvent(old(S()), wanted, timeout, devh))
    {
      hide WF, TakeSig, TakeInt, TakeDma, TakeIpc, Elect, DelayAdd, SetRet, SetState, Current;
      var cur := GetCurrent();
      var done;
      if Wants(wanted, EVENT_SIGNAL) {
        done := TrySignal(cur);
        if done {
          return;
        }
      }
      if Wants(wanted, EVENT_IRQ) {
        done := TryInterrupt(cur, devh);
        if done {
          return;
        }
      }
      if Wants(wanted, EVENT_DMA) {
        done := TryDma(cur);
        if done {
          return;
        }
      }
      if Wants(wanted, EVENT_IPC) {
        done := TryIpc(cur);
        if done {
          return;
        }
      }
      if timeout == -1 {
        SetReturn(cur, Again);
        return;
      }
      Park(cur, wanted, timeout);
    }

    method GateSleep(ms: nat, mode: nat)
      requires Valid() && !panicked
      modifies this
      ensures Valid() && Agrees(Sleep(old(S()), ms, mode))
    {
      hide WF, Elect, SetRet, SetState, Current;
      var cur := GetCurrent();
      if mode > SLEEP_MODE_DEEP {
        SetReturn(cur, Invalid);
        return;
      }
      var ok := DelayAddJob(cur, ms);
      if !ok {
        SetReturn(cur, Busy);
        return;
      }
      SetTaskState(cur, if mode == SLEEP_MODE_DEEP then SleepingDeep else Sleeping);
      SetReturn(cur, NonSense);
      SchedElect();
    }

    method GateExit(result: nat)
      requires Valid() && !panicked
      modifies this
      ensures Valid() && Agrees(Exit(old(S()), result))
    {
      hide WF, Elect, SetRet, SetState, Current;
      var cur := GetCurrent();
      SetJobReturn(cur, result);
      SetTaskState(cur, if result != 0 then Aborting else Finished);
      SetReturn(cur, NonSense);
      SchedElect();
    }

    method SetJobReturn(t: nat, result: nat)
      requires Valid() && t < |meta|
      modifies `code
      ensures Valid() && S() == old(S()).(code := old(code)[t := result])
    {
      code := code[t := result];
    }

    method GateYield()
      requires Valid() && !panicked
      modifies this
      ensures Valid() && Agrees(Yield(old(S())))
    {
      hide WF, Elect, SetRet, Current;
      var cur := GetCurrent();
      SchedElect();
      if panicked {
        SetRetPanicStays(Elect(old(S())), cur, Ok);
        return;
      }
      SetReturn(cur, Ok);
    }

    /** A user fault: the running task never runs again. */
    method FaultHandler()
      requires Valid() && !panicked
      modifies this
      ensures Valid() && Agrees(UserFault(old(S())))
    {
      hide WF, Elect, SetState, Current;
      var cur := GetCurrent();
      SetTaskState(cur, Fault);
      SchedElect();
    }

    method GateStart(target: nat, allowed: bool)
      requires Valid() && !panicked
      modifies this
      ensures Valid() && Agrees(Start(old(S()), target, allowed))
    {
      hide WF, SetRet, Schedule, Requeue, Current;
      var cur := GetCurrent();
      if !allowed {
        SetReturn(cur, Denied);
        return;
      }
      if target >= |meta| {
        SetReturn(cur, Invalid);
        return;
      }
      ScheduleAccepts(S(), target);
      var ok := AddToJobset(target, true);
      if panicked {
        return;
      }
      if !ok {
        panicked := true;
        PanicShape(old(S()));
        return;
      }
      NoteStarted(target);
      SetReturn(cur, Ok);
    }

    ghost method NoteStarted(t: nat)
      requires Valid() && t < |meta|
      modifies `started
      ensures Valid() && S() == old(S()).(started := old(started)[t := true])
    {
      started := started[t := true];
    }

    method GateAlarmStart(ms: nat, periodic: bool)
      requires Valid() && !panicked
      modifies this
      ensures Valid() && Agrees(SetAlarm(old(S()), ms, periodic))
    {
      hide WF, SetRet, Current;
      var cur := GetCurrent();
      var ok := DelayAddSignal(cur, ms, SIGNAL_ALARM, periodic);
      SetReturn(cur, if ok then Ok else Busy);
    }

    method GateAlarmStop(ms: nat)
      requires Valid() && !panicked
      modifies this
      ensures Valid() && Agrees(StopAlarm(old(S()), ms))
    {
      hide WF, SetRet, Current;
      var cur := GetCurrent();
      var ok := DelayDelSignal(cur, ms);
      SetReturn(cur, if ok then Ok else NoEntity);
    }

    // ---- Interrupts and the handler's exit -------------------------------------------------------------

    method UserIsr(owner: nat, irqn: nat)
      requires Valid() && !panicked
      modifies this
      ensures Valid() && Agrees(Irq(old(S()), owner, irqn))
    {
      hide WakeIfWaiting;
      if owner >= |meta| || (ints[owner].head + 1) % DEPTH == ints[owner].bottom {
        panicked := true;
        return;
      }
      var r := ints[owner];
      ints := ints[owner := r.(buf := r.buf[r.head := irqn], head := (r.head + 1) % DEPTH)];
      AwakeIfWaiting(owner, st[owner]);
    }

    method DmaIsr(owner: nat, e: DmaEvent)
      requires Valid() && !panicked
      modifies this
      ensures Valid() && Agrees(Dma(old(S()), owner, e))
    {
      hide WakeIfWaiting;
      if owner >= |meta| || (dmas[owner].head + 1) % DEPTH == dmas[owner].bottom {
        panicked := true;
        return;
      }
      var r := dmas[owner];
      dmas := dmas[owner := r.(buf := r.buf[r.head := e], head := (r.head + 1) % DEPTH)];
      AwakeIfWaiting(owner, st[owner]);
    }

    /** The return value of the task that is resumed is taken from it; NON_SENSE is a panic. */
    method ReturnToUser()
      requires Valid() && !panicked
      modifies `ret, `panicked
      ensures Valid() && Agrees(HandOff(old(S())))
    {
      var t := GetCurrent();
      if ret[t] == None {
        return;
      }
      if ret[t] == Some(NonSense) {
        panicked := true;
        return;
      }
      ret := ret[t := None];
    }

    method UserWrite(data: seq<byte>)
      requires Valid()
      modifies `exch
      ensures Valid() && S() == Gate(old(S()), DoWrite(data))
    {
      var t := GetCurrent();
      exch := exch[t := ToKernel(exch[t], data)];
    }

    method Dispatch(a: Action)
      requires Valid() && !panicked
      modifies this
      ensures Valid() && Agrees(Gate(old(S()), a))
    {
      hide WF, SendIpc, SendSignal, WaitEvent, Sleep, Exit, Yield, UserFault, Start;
      hide SetAlarm, StopAlarm, Irq, Dma, Tick;
      match a
      case DoSendIpc(target, len) => GateSendIpc(target, len);
      case DoSendSignal(target, sig) => GateSendSignal(target, sig);
      case DoWaitEvent(wanted, timeout, devh) => GateWaitForEvent(wanted, timeout, devh);
      case DoSleep(ms, mode) => GateSleep(ms, mode);
      case DoExit(result) => GateExit(result);
      case DoYield => GateYield();
      case DoFault => FaultHandler();
      case DoStart(target, allowed) => GateStart(target, allowed);
      case DoSetAlarm(ms, periodic) => GateAlarmStart(ms, periodic);
      case DoStopAlarm(ms) => GateAlarmStop(ms);
      case DoIrq(owner, irqn) => UserIsr(owner, irqn);
      case DoDma(owner, event) => DmaIsr(owner, event);
      case DoTick => SystemTick();
      case DoWrite(data) => UserWrite(data);
    }

    /** One kernel entry and exit. The machine does what the specification says, and so keeps the
        kernel's invariant, without a panic, exactly when the step is legal and trips over no held
        task. */
    method Enter(a: Action)
      requires Valid() && !panicked
      modifies this
      ensures Valid() && Agrees(Step(old(S()), a))
      ensures Steady(old(S())) && EnvOk(old(S()), a) ==>
                (Steady(S()) <==> Legal(old(S()), a) && !Trips(old(S()), a))
    {
      hide WF, Gate, HandOff, Inv, Clear, EnvOk, Legal, Trips;
      Dispatch(a);
      if !panicked && !a.DoWrite? {
        ReturnToUser();
      }
      if Steady(old(S())) && EnvOk(old(S()), a) {
        StepExact(old(S()), a);
        PanicBreaks(S());
        PanicBreaks(Step(old(S()), a));
      }
    }
  }
}
