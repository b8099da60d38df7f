/** The kernel state and the effect of every gate, interrupt and tick on it.

The task table is kept column by column: entry `t` of each column belongs to task `t`, and
idle is the last task. A task handle is represented by the task's index; an index past the
end stands for a handle that names no task. A panic sets `panicked`, after which nothing
happens any more. Three columns exist in the model only: `started` (the scheduler has been
given the task), `mask` (the events a waiting task asked for) and `sentTo` (the receiver of
a blocked sender).
*/
module KernelSpec {
  import opened Slots
  import opened Rings
  import opened Exchange
  import opened IpcGraph
  import opened Rrmq

  datatype JobState =
    | NotStarted | Ready | Sleeping | SleepingDeep | Fault | Security
    | Aborting | Finished | IpcSendBlocked | WaitForEvent

  datatype Status =
    | Ok | Invalid | Denied | NoEntity | Busy | AlreadyMapped | Critical
    | Timeout | Again | Intr | DeadLk | NonSense

  const SIGNAL_ABORT := 1
  const SIGNAL_ALARM := 2
  const SIGNAL_USR2 := 12
  const SLEEP_MODE_DEEP := 1
  const TICK_MS := 1     // milliseconds per tick at the default 1000 Hz

  datatype DmaEvent = DmaEvent(stream: nat, event: nat)

  datatype DelayData = DelayData(wait: nat, remaining: nat)
  type DelayCell = Slot<DelayData>

  datatype AlarmData = AlarmData(sig: nat, wait: nat, remaining: nat, periodic: bool)
  type AlarmCell = Slot<AlarmData>

  datatype State = State(
    size: nat,                         // CONFIG_MAX_TASKS
    meta: seq<Meta>,
    st: seq<JobState>,
    ret: seq<Option<Status>>,          // None: no syscall return value assigned
    code: seq<nat>,
    ipcs: seq<seq<nat>>,
    sigs: seq<seq<nat>>,
    ints: seq<Ring<nat>>,
    dmas: seq<Ring<DmaEvent>>,
    exch: seq<seq<byte>>,
    sched: Sched,
    delays: seq<DelayCell>,
    alarms: seq<AlarmCell>,
    jiffies: nat,
    panicked: bool,
    started: seq<bool>,
    mask: seq<bv8>,
    sentTo: seq<nat>)
  {
    function N(): nat { |meta| }
    function Idle(): int { |meta| - 1 }
    function Users(): int { |meta| - 1 }   // tasks other than idle
  }

  predicate Handlers<D>(cells: seq<Slot<D>>, n: nat) {
    forall i :: 0 <= i < |cells| ==> cells[i].handler < n
  }

  /** Every table has its declared number of cells and every index in it names a task. */
  predicate WF(s: State) {
    var n := s.N();
    && 1 <= n <= s.size
    && |s.st| == n && |s.ret| == n && |s.code| == n && |s.ints| == n && |s.dmas| == n
    && |s.ipcs| == n && |s.sigs| == n && |s.exch| == n
    && |s.started| == n && |s.mask| == n && |s.sentTo| == n
    && (forall t :: 0 <= t < n ==> |s.ipcs[t]| == s.size)
    && (forall t :: 0 <= t < n ==> |s.sigs[t]| == s.size)
    && (forall t :: 0 <= t < n ==> ValidRing(s.ints[t]))
    && (forall t :: 0 <= t < n ==> ValidRing(s.dmas[t]))
    && (forall t :: 0 <= t < n ==> |s.exch[t]| == AREA_LEN)
    && s.sched.Shaped(s.size)
    && Named(s.sched, n)
    && |s.delays| == s.size && Handlers(s.delays, n)
    && |s.alarms| == s.size && Handlers(s.alarms, n)
  }

  /** The running task, idle when the scheduler has no current job. */
  function Current(s: State): (t: nat)
    requires WF(s)
    ensures t < s.N()
  {
    s.sched.Running(s.Idle())
  }

  /** Slot `src` of row `dst` overwritten with `v`. */
  function Put(rows: seq<seq<nat>>, dst: nat, src: nat, v: nat): (r: seq<seq<nat>>)
    requires dst < |rows| && src < |rows[dst]|
    ensures |r| == |rows| && forall d :: 0 <= d < |rows| ==> |r[d]| == |rows[d]|
    ensures forall d, i :: 0 <= d < |rows| && 0 <= i < |rows[d]| ==>
              r[d][i] == if d == dst && i == src then v else rows[d][i]
  {
    var row: seq<nat> := rows[dst][src := v];
    rows[dst := row]
  }

  predicate Waiting(j: JobState) {
    j == Sleeping || j == SleepingDeep || j == WaitForEvent
  }

  /** States an event other than a timeout wakes a task from. */
  predicate Wakeable(j: JobState) {
    j == Sleeping || j == WaitForEvent
  }

  function Panic(s: State): State { s.(panicked := true) }

  function SetRet(s: State, t: nat, r: Status): (q: State)
    requires WF(s) && t < s.N()
    ensures WF(q) && q.meta == s.meta && q.size == s.size
  {
    s.(ret := s.ret[t := Some(r)])
  }

  function SetState(s: State, t: nat, j: JobState): (q: State)
    requires WF(s) && t < s.N()
    ensures WF(q) && q.meta == s.meta && q.size == s.size
  {
    s.(st := s.st[t := j])
  }

  // ---- Scheduler entry points -----------------------------------------------------------------

  predicate CanSchedule(s: State, t: nat)
    requires WF(s)
  {
    t < s.N() && s.st[t] == Ready && !Holds(s.sched.Active().cells, t)
  }

  /** Add a ready task to the active jobset; a task that is not ready or already there is refused. */
  function Schedule(s: State, t: nat): (q: State)
    requires WF(s)
    ensures WF(q) && q.meta == s.meta && q.size == s.size
  {
    var a := s.sched.Active();
    var accepted := a.num <= s.size && CanSchedule(s, t);
    s.(sched := if accepted then s.sched.WithActive(Insert(a, t, s.meta[t])) else s.sched,
       panicked := s.panicked || a.num > s.size)
  }

  /** The running job is ready but the backed jobset claims to be overfull. */
  predicate ElectPanics(s: State)
    requires WF(s)
  {
    s.sched.current.Some? && s.st[Current(s)] == Ready && s.sched.Backed().num > s.size
  }

  function Elect(s: State): (q: State)
    requires WF(s)
    ensures WF(q) && q.meta == s.meta && q.size == s.size
  {
    s.(sched := if ElectPanics(s) then s.sched else ElectSched(s.sched, s.meta, s.st[Current(s)] == Ready),
       panicked := s.panicked || ElectPanics(s))
  }

  /** 32-bit decrement, wrapping at zero. */
  function Dec32(q: nat): nat {
    if q == 0 then 0xFFFF_FFFF else q - 1
  }

  function BurnQuantum(sc: Sched): (r: Sched)
    requires sc.current.Some? && sc.Shaped(|sc.primary.cells|)
    ensures r.Shaped(|sc.primary.cells|)
  {
    var a, i := sc.Active(), sc.current.value;
    var c := a.cells[i];
    sc.WithActive(Jobset(a.num, a.cells[i := c.(data := c.data.(quantum := Dec32(c.data.quantum)))]))
  }

  /** Per-tick quantum accounting; the running job loses the core when its quantum reaches zero. */
  function Refresh(s: State): (q: State)
    requires WF(s)
    ensures WF(q) && q.meta == s.meta && q.size == s.size
  {
    var b := s.(sched := if s.sched.current.Some? then BurnQuantum(s.sched) else s.sched);
    var spent := b.sched.current.Some? && b.sched.Active().cells[b.sched.current.value].data.quantum == 0;
    s.(sched := if spent then Elect(b).sched else b.sched, panicked := s.panicked || (spent && ElectPanics(b)))
  }

  // ---- Delay manager ---------------------------------------------------------------------------

  predicate DelayHasRoom(s: State) {
    FirstFree(s.delays) < |s.delays|
  }

  function DelayAdd(s: State, t: nat, ms: nat): (q: State)
    requires WF(s) && t < s.N()
    ensures WF(q) && q.meta == s.meta && q.size == s.size
  {
    var c := Slot(true, t, DelayData(ms, ms));
    s.(delays := if DelayHasRoom(s) then s.delays[FirstFree(s.delays) := c] else s.delays)
  }

  function DelayDel(s: State, t: nat): (q: State)
    requires WF(s)
    ensures WF(q) && q.meta == s.meta && q.size == s.size
  {
    var i := FirstOf(s.delays, t);
    s.(delays := if i < |s.delays| then s.delays[i := s.delays[i].(active := false)] else s.delays)
  }

  /** An event wakes a task: it leaves the delay queue and becomes ready with return value `r`. */
  function Wake(s: State, t: nat, r: Status): (q: State)
    requires WF(s) && t < s.N()
    ensures WF(q) && q.meta == s.meta && q.size == s.size
  {
    Schedule(SetState(SetRet(DelayDel(s, t), t, r), t, Ready), t)
  }

  function WakeIfWaiting(s: State, t: nat, was: JobState): (q: State)
    requires WF(s) && t < s.N()
    ensures WF(q) && q.meta == s.meta && q.size == s.size
  {
    if Wakeable(was) then Wake(s, t, Intr) else s
  }

  // ---- Signals ----------------------------------------------------------------------------------

  predicate SigFree(s: State, src: nat, dst: nat)
    requires WF(s) && src < s.N()
  {
    dst < s.N() && s.sigs[dst][src] == 0
  }

  function StoreSig(s: State, sig: nat, src: nat, dst: nat): (q: State)
    requires WF(s) && src < s.N() && dst < s.N()
    ensures WF(q) && q.meta == s.meta && q.size == s.size
  {
    s.(sigs := Put(s.sigs, dst, src, sig))
  }

  /** Store a signal in a free slot; a receiver in WAITFOREVENT becomes ready at once. */
  function PushSig(s: State, sig: nat, src: nat, dst: nat): (q: State)
    requires WF(s) && src < s.N()
    ensures WF(q) && q.meta == s.meta && q.size == s.size
  {
    var free := SigFree(s, src, dst);
    var wakes := free && s.st[dst] == WaitForEvent;
    var w := if wakes then Schedule(SetState(s, dst, Ready), dst) else s;
    s.(sigs := if free then Put(s.sigs, dst, src, sig) else s.sigs,
       st := w.st, sched := w.sched, panicked := w.panicked)
  }

  // ---- Tick -------------------------------------------------------------------------------------

  predicate Expires(remaining: nat) {
    remaining <= TICK_MS
  }

  /** A delay cell after one tick. */
  function Aged(c: DelayCell): (r: DelayCell)
    ensures r.handler == c.handler
  {
    if !c.active then c
    else if !Expires(c.data.remaining) then c.(data := c.data.(remaining := c.data.remaining - TICK_MS))
    else Slot(false, c.handler, c.data.(remaining := 0))
  }

  /** One delay cell: count down, or make its task ready. A due cell of a task that is not
      waiting is a panic. */
  function TickJob(s: State, i: nat): (q: State)
    requires WF(s) && i < s.size
    ensures WF(q) && q.meta == s.meta && q.size == s.size
  {
    var c := s.delays[i];
    var due := c.active && Expires(c.data.remaining);
    if due && !Waiting(s.st[c.handler]) then Panic(s)
    else
      var w := if due then Schedule(SetState(s, c.handler, Ready), c.handler) else s;
      s.(st := w.st, sched := w.sched, panicked := w.panicked,
         ret := if due then s.ret[c.handler := Some(Timeout)] else s.ret,
         delays := s.delays[i := Aged(c)])
  }

  /** The delayed-job loop after its first `k` cells. */
  function TickJobs(s: State, k: nat): (q: State)
    requires WF(s) && k <= s.size
    ensures WF(q) && q.meta == s.meta && q.size == s.size
  {
    if k == 0 then s else TickJob(TickJobs(s, k - 1), k - 1)
  }

  predicate Fires(c: AlarmCell) {
    c.active && Expires(c.data.remaining)
  }

  /** An alarm cell after one tick: counted down, rearmed, or cleared. */
  function AgedAlarm(c: AlarmCell): (r: AlarmCell)
    ensures r.handler == c.handler
  {
    if !c.active then c
    else if !Expires(c.data.remaining) then c.(data := c.data.(remaining := c.data.remaining - TICK_MS))
    else if c.data.periodic then c.(data := c.data.(remaining := c.data.wait))
    else c.(active := false, data := c.data.(remaining := 0))
  }

  function TickAlarm(s: State, i: nat): (q: State)
    requires WF(s) && i < s.size
    ensures WF(q) && q.meta == s.meta && q.size == s.size
  {
    var c := s.alarms[i];
    var p := if Fires(c) then PushSig(s, c.data.sig, c.handler, c.handler) else s;
    s.(sigs := p.sigs, st := p.st, sched := p.sched, panicked := p.panicked, alarms := s.alarms[i := AgedAlarm(c)])
  }

  /** The delayed-signal loop after its first `k` cells. */
  function TickAlarms(s: State, k: nat): (q: State)
    requires WF(s) && k <= s.size
    ensures WF(q) && q.meta == s.meta && q.size == s.size
  {
    if k == 0 then s else TickAlarm(TickAlarms(s, k - 1), k - 1)
  }

  function Clock(s: State): (q: State)
    requires WF(s)
    ensures WF(q) && q.meta == s.meta && q.size == s.size
  {
    s.(jiffies := s.jiffies + 1)
  }

  function Tick(s: State): (q: State)
    requires WF(s)
    ensures WF(q) && q.meta == s.meta && q.size == s.size
  {
    TickAlarms(TickJobs(Refresh(Clock(s)), s.size), s.size)
  }

  // ---- Event consumption --------------------------------------------------------------------------

  /** First of the first `n` slots that holds something (read through an 8-bit variable), or `n`. */
  function FirstPending(slots: seq<nat>, n: nat, i: nat): (k: nat)
    requires i <= n <= |slots|
    ensures i <= k <= n
    ensures k < n ==> slots[k] % 256 > 0
    ensures forall j :: i <= j < k ==> slots[j] % 256 == 0
    decreases n - i
  {
    if i == n || slots[i] % 256 > 0 then i else FirstPending(slots, n, i + 1)
  }

  function WriteTo(s: State, t: nat, kind: byte, source: nat, data: seq<byte>): (q: State)
    requires WF(s) && t < s.N() && |data| <= MAX_PAYLOAD
    ensures WF(q) && q.meta == s.meta && q.size == s.size
  {
    s.(exch := s.exch[t := WriteEvent(s.exch[t], kind, source, data)])
  }

  function TakeSig(s: State, t: nat, src: nat): (q: State)
    requires WF(s) && t < s.N() && src < s.N()
    ensures WF(q) && q.meta == s.meta && q.size == s.size
  {
    var v := s.sigs[t][src] % 256;
    SetRet(WriteTo(StoreSig(s, 0, src, t), t, 2, s.meta[src].handle, Le32(v)), t, Ok)
  }

  function TakeInt(s: State, t: nat, devh: nat): (q: State)
    requires WF(s) && t < s.N()
    ensures WF(q) && q.meta == s.meta && q.size == s.size
  {
    var r := s.ints[t];
    SetRet(WriteTo(s.(ints := s.ints[t := PopClear(r)]), t, 4, devh, Le32(r.buf[r.bottom])), t, Ok)
  }

  function TakeDma(s: State, t: nat): (q: State)
    requires WF(s) && t < s.N()
    ensures WF(q) && q.meta == s.meta && q.size == s.size
  {
    var r := s.dmas[t];
    var e := r.buf[r.bottom];
    SetRet(WriteTo(s.(dmas := s.dmas[t := Pop(r)]), t, 8, e.stream, [e.event % 256]), t, Ok)
  }

  /** The payload a receiver is given: the first `len` bytes of the sender's area, `len` read on 8 bits. */
  function Payload(s: State, t: nat, src: nat): (data: seq<byte>)
    requires WF(s) && t < s.N() && src < s.N()
    ensures |data| <= MAX_PAYLOAD
  {
    var len := s.ipcs[t][src] % 256;
    s.exch[src][..if len <= MAX_PAYLOAD then len else MAX_PAYLOAD]
  }

  /** Deliver a message and release its sender. */
  function TakeIpc(s: State, t: nat, src: nat): (q: State)
    requires WF(s) && t < s.N() && src < s.N()
    ensures WF(q) && q.meta == s.meta && q.size == s.size
  {
    var w := WriteTo(s, t, 1, s.meta[src].handle, Payload(s, t, src));
    var r := Schedule(SetState(SetRet(w, src, Ok), src, Ready), src);
    SetRet(r.(ipcs := Put(r.ipcs, t, src, 0)), t, Ok)
  }

  // ---- Gates ----------------------------------------------------------------------------------------

  function SendIpc(s: State, target: nat, len: nat): (q: State)
    requires WF(s)
    ensures WF(q) && q.meta == s.meta && q.size == s.size
  {
    var cur := Current(s);
    if len > MAX_PAYLOAD then SetRet(s, cur, Invalid)
    else match Detect(s.ipcs, s.size, cur, target)
      case Overflow => Panic(s)
      case Deadlock => SetRet(s, cur, DeadLk)
      case Safe =>
        if target >= s.N() then SetRet(s, cur, Invalid)
        else
          var p := s.(ipcs := Put(s.ipcs, target, cur, len));
          if cur == target then SetRet(p, cur, Invalid)
          else
            var b := SetRet(SetState(p, cur, IpcSendBlocked), cur, NonSense).(sentTo := s.sentTo[cur := target]);
            Elect(WakeIfWaiting(b, target, b.st[target]))
  }

  function SendSignal(s: State, target: nat, sig: nat): (q: State)
    requires WF(s)
    ensures WF(q) && q.meta == s.meta && q.size == s.size
  {
    var cur := Current(s);
    if cur == target || sig < SIGNAL_ABORT || sig > SIGNAL_USR2 || target >= s.N() then SetRet(s, cur, Invalid)
    else if !SigFree(s, cur, target) then SetRet(s, cur, Busy)
    else SetRet(WakeIfWaiting(PushSig(s, sig, cur, target), target, s.st[target]), cur, Ok)
  }

  /** `devh` is the device manager's answer for the interrupt number, used when one is delivered. */
  function WaitEvent(s: State, mask: bv8, timeout: int, devh: nat): (q: State)
    requires WF(s)
    ensures WF(q) && q.meta == s.meta && q.size == s.size
  {
    var cur, n := Current(s), s.N();
    var sig, ipc := FirstPending(s.sigs[cur], n, 0), FirstPending(s.ipcs[cur], n, 0);
    if Wants(mask, EVENT_SIGNAL) && sig < n then TakeSig(s, cur, sig)
    else if Wants(mask, EVENT_IRQ) && !IsEmpty(s.ints[cur]) then TakeInt(s, cur, devh)
    else if Wants(mask, EVENT_DMA) && !IsEmpty(s.dmas[cur]) then TakeDma(s, cur)
    else if Wants(mask, EVENT_IPC) && ipc < n then TakeIpc(s, cur, ipc)
    else if timeout == -1 then SetRet(s, cur, Again)
    else
      var d := if timeout > 0 then DelayAdd(s, cur, timeout) else s;
      Elect(SetRet(SetState(d, cur, WaitForEvent), cur, NonSense).(mask := s.mask[cur := mask]))
  }

  function Sleep(s: State, ms: nat, mode: nat): (q: State)
    requires WF(s)
    ensures WF(q) && q.meta == s.meta && q.size == s.size
  {
    var cur := Current(s);
    if mode > SLEEP_MODE_DEEP then SetRet(s, cur, Invalid)
    else if !DelayHasRoom(s) then SetRet(s, cur, Busy)
    else
      var j := if mode == SLEEP_MODE_DEEP then SleepingDeep else Sleeping;
      Elect(SetRet(SetState(DelayAdd(s, cur, ms), cur, j), cur, NonSense))
  }

  function Exit(s: State, result: nat): (q: State)
    requires WF(s)
    ensures WF(q) && q.meta == s.meta && q.size == s.size
  {
    var cur := Current(s);
    var e := s.(code := s.code[cur := result]);
    Elect(SetRet(SetState(e, cur, if result != 0 then Aborting else Finished), cur, NonSense))
  }

  function Yield(s: State): (q: State)
    requires WF(s)
    ensures WF(q) && q.meta == s.meta && q.size == s.size
  {
    SetRet(Elect(s), Current(s), Ok)
  }

  /** A user-mode fault of the running task. */
  function UserFault(s: State): (q: State)
    requires WF(s)
    ensures WF(q) && q.meta == s.meta && q.size == s.size
  {
    Elect(SetState(s, Current(s), Fault))
  }

  /** Start the task named by a label; `target` past the end stands for an unknown label. */
  function Start(s: State, target: nat, allowed: bool): (q: State)
    requires WF(s)
    ensures WF(q) && q.meta == s.meta && q.size == s.size
  {
    var cur := Current(s);
    if !allowed then SetRet(s, cur, Denied)
    else if target >= s.N() then SetRet(s, cur, Invalid)
    else if s.sched.Active().num > s.size || !CanSchedule(s, target) then Panic(s)
    else SetRet(Schedule(s, target).(started := s.started[target := true]), cur, Ok)
  }

  predicate AlarmHasRoom(s: State) {
    FirstFree(s.alarms) < |s.alarms|
  }

  function SetAlarm(s: State, ms: nat, periodic: bool): (q: State)
    requires WF(s)
    ensures WF(q) && q.meta == s.meta && q.size == s.size
  {
    var cur := Current(s);
    if !AlarmHasRoom(s) then SetRet(s, cur, Busy)
    else
      var c := Slot(true, cur, AlarmData(SIGNAL_ALARM, ms, ms, periodic));
      SetRet(s.(alarms := s.alarms[FirstFree(s.alarms) := c]), cur, Ok)
  }

  function FirstAlarm(cells: seq<AlarmCell>, t: nat, ms: nat, i: nat): (k: nat)
    requires i <= |cells|
    ensures i <= k <= |cells|
    ensures k < |cells| ==> IsFor(cells[k], t) && cells[k].data.wait == ms
    ensures forall j :: i <= j < k ==> !(IsFor(cells[j], t) && cells[j].data.wait == ms)
    decreases |cells| - i
  {
    if i == |cells| || (IsFor(cells[i], t) && cells[i].data.wait == ms) then i else FirstAlarm(cells, t, ms, i + 1)
  }

  function StopAlarm(s: State, ms: nat): (q: State)
    requires WF(s)
    ensures WF(q) && q.meta == s.meta && q.size == s.size
  {
    var cur := Current(s);
    var i := FirstAlarm(s.alarms, cur, ms, 0);
    if i == |s.alarms| then SetRet(s, cur, NoEntity)
    else SetRet(s.(alarms := s.alarms[i := s.alarms[i].(active := false)]), cur, Ok)
  }

  // ---- Interrupts -------------------------------------------------------------------------------------

  function Irq(s: State, owner: nat, irqn: nat): (q: State)
    requires WF(s)
    ensures WF(q) && q.meta == s.meta && q.size == s.size
  {
    if owner >= s.N() || IsFull(s.ints[owner]) then Panic(s)
    else WakeIfWaiting(s.(ints := s.ints[owner := Push(s.ints[owner], irqn)]), owner, s.st[owner])
  }

  function Dma(s: State, owner: nat, e: DmaEvent): (q: State)
    requires WF(s)
    ensures WF(q) && q.meta == s.meta && q.size == s.size
  {
    if owner >= s.N() || IsFull(s.dmas[owner]) then Panic(s)
    else WakeIfWaiting(s.(dmas := s.dmas[owner := Push(s.dmas[owner], e)]), owner, s.st[owner])
  }

  // ---- Handler exit and whole steps ---------------------------------------------------------------------

  /** The handler hands the pending return value to the task it resumes; NON_SENSE there is a panic. */
  function HandOff(s: State): (q: State)
    requires WF(s)
    ensures WF(q) && q.meta == s.meta && q.size == s.size
  {
    var t := Current(s);
    if s.ret[t] == None then s
    else if s.ret[t] == Some(NonSense) then Panic(s)
    else s.(ret := s.ret[t := None])
  }

  datatype Action =
    | DoSendIpc(target: nat, len: nat)
    | DoSendSignal(target: nat, sig: nat)
    | DoWaitEvent(mask: bv8, timeout: int, devh: nat)
    | DoSleep(ms: nat, mode: nat)
    | DoExit(result: nat)
    | DoYield
    | DoFault
    | DoStart(target: nat, allowed: bool)
    | DoSetAlarm(ms: nat, periodic: bool)
    | DoStopAlarm(ms: nat)
    | DoIrq(owner: nat, irqn: nat)
    | DoDma(owner: nat, event: DmaEvent)
    | DoTick
    | DoWrite(data: seq<byte>)   // user code fills its own exchange area

  function Gate(s: State, a: Action): (q: State)
    requires WF(s)
    ensures WF(q) && q.meta == s.meta && q.size == s.size
  {
    match a
    case DoSendIpc(target, len) => SendIpc(s, target, len)
    case DoSendSignal(target, sig) => SendSignal(s, target, sig)
    case DoWaitEvent(mask, timeout, devh) => WaitEvent(s, mask, timeout, devh)
    case DoSleep(ms, mode) => Sleep(s, ms, mode)
    case DoExit(result) => Exit(s, result)
    case DoYield => Yield(s)
    case DoFault => UserFault(s)
    case DoStart(target, allowed) => Start(s, target, allowed)
    case DoSetAlarm(ms, periodic) => SetAlarm(s, ms, periodic)
    case DoStopAlarm(ms) => StopAlarm(s, ms)
    case DoIrq(owner, irqn) => Irq(s, owner, irqn)
    case DoDma(owner, event) => Dma(s, owner, event)
    case DoTick => Tick(s)
    case DoWrite(data) => s.(exch := s.exch[Current(s) := ToKernel(s.exch[Current(s)], data)])
  }

  /** One kernel entry and exit, or one user write. */
  function Step(s: State, a: Action): (q: State)
    requires WF(s)
    ensures WF(q) && q.meta == s.meta && q.size == s.size
  {
    if s.panicked then s
    else if a.DoWrite? then Gate(s, a)
    else
      var g := Gate(s, a);
      if g.panicked then g else HandOff(g)
  }
}
