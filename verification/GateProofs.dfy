/** Every gate, interrupt and tick keeps the invariant, under the conditions stated here. */
module GateProofs {
  import opened Slots
  import opened Rings
  import opened Exchange
  import opened IpcGraph
  import opened Rrmq
  import opened KernelSpec
  import opened Invariants

  // ---- The running task blocks ------------------------------------------------------------------------

  lemma BlockSched(sc: Sched, size: nat, meta: seq<Meta>, st: seq<JobState>, started: seq<bool>, j: JobState)
    requires SchedInv(sc, size, meta, st, started) && sc.current.Some? && BlockedRunner(sc, st) == None && j != Ready
    ensures sc.Running(0) < |st| - 1 && st[sc.Running(0)] == Ready && started[sc.Running(0)]
    ensures SchedInv(sc, size, meta, st[sc.Running(0) := j], started)
  {
    RunnerKnown(sc, size, meta, st, started);
    var c := sc.Running(0);
    assert ReadySet(st[c := j], started) == ReadySet(st, started) - {c};
  }

  lemma BlockColumns(st: seq<JobState>, started: seq<bool>, ret: seq<Option<Status>>, c: nat, j: JobState,
                     r: Option<Status>)
    requires Dormant(st, started) && RetInv(st, ret) && c < |st| && started[c] && j != Ready
    requires Parked(j) ==> r == Some(NonSense)
    ensures Dormant(st[c := j], started) && RetInv(st[c := j], ret[c := r])
  {
  }

  lemma NoDelayWhenReady(delays: seq<DelayCell>, st: seq<JobState>, ret: seq<Option<Status>>, c: nat)
    requires DelayInv(delays, st, ret) && c < |st| && !Waiting(st[c]) && !IsHeld(st[c], ret[c])
    ensures Count(delays, c) == 0 && forall i :: 0 <= i < |delays| ==> !IsFor(delays[i], c)
  {
    CountHolds(delays, c);
  }

  lemma DelayInvBlock(delays: seq<DelayCell>, st: seq<JobState>, ret: seq<Option<Status>>, c: nat, j: JobState,
                      r: Option<Status>)
    requires DelayInv(delays, st, ret) && c < |st| && !Waiting(st[c]) && !IsHeld(st[c], ret[c])
    requires j != Sleeping && j != SleepingDeep
    ensures DelayInv(delays, st[c := j], ret[c := r])
  {
    NoDelayWhenReady(delays, st, ret, c);
  }

  lemma DelayInvAdd(delays: seq<DelayCell>, st: seq<JobState>, ret: seq<Option<Status>>, c: nat, ms: nat, j: JobState,
                    r: Option<Status>)
    requires DelayInv(delays, st, ret) && c < |st| - 1 && !Waiting(st[c]) && !IsHeld(st[c], ret[c]) && Waiting(j)
    requires FirstFree(delays) < |delays|
    ensures DelayInv(delays[FirstFree(delays) := Slot(true, c, DelayData(ms, ms))], st[c := j], ret[c := r])
  {
    NoDelayWhenReady(delays, st, ret, c);
    var i, cell := FirstFree(delays), Slot(true, c, DelayData(ms, ms));
    CellUpdate(delays, i, cell);
    var next := delays[i := cell];
    assert forall t :: Count(next, t) == Count(delays, t) + (if t == c then 1 else 0);
    assert forall k :: 0 <= k < |delays| && next[k].active && k != i ==> delays[k].handler != c;
  }

  lemma SlotInvOther(ipcs: seq<seq<nat>>, st: seq<JobState>, sentTo: seq<nat>, c: nat, j: JobState)
    requires SlotInv(ipcs, st, sentTo) && c < |st| && st[c] != IpcSendBlocked && j != IpcSendBlocked
    ensures SlotInv(ipcs, st[c := j], sentTo)
  {
  }

  /** The running task leaves READY for `j`; other columns of the new state are as the gate says. */
  lemma BlockCore(s: State, q: State, j: JobState, r: Option<Status>)
    requires Inv(s) && s.sched.current.Some? && j != Ready && WF(q)
    requires var c := Current(s);
             && q == s.(st := s.st[c := j], ret := s.ret[c := r], code := q.code, delays := q.delays,
                        ipcs := q.ipcs, sentTo := q.sentTo, mask := q.mask)
             && (Parked(j) ==> r == Some(NonSense))
    requires DelayInv(q.delays, q.st, q.ret)
    ensures Core(q)
  {
    BlockSched(s.sched, s.size, s.meta, s.st, s.started, j);
    BlockColumns(s.st, s.started, s.ret, Current(s), j, r);
  }

  lemma RunnerReady(s: State)
    requires Inv(s)
    ensures s.st[Current(s)] == Ready
    ensures s.sched.current.Some? ==> Current(s) < s.Users() && s.started[Current(s)]
  {
    if s.sched.current.Some? {
      RunnerKnown(s.sched, s.size, s.meta, s.st, s.started);
    }
  }

  lemma LeaveKeeps(s: State, q: State, j: JobState, r: Option<Status>)
    requires Inv(s) && s.sched.current.Some? && WF(q)
    requires j != Ready && j != IpcSendBlocked && j != WaitForEvent
    requires var c := Current(s);
             && q == s.(st := s.st[c := j], ret := s.ret[c := r], code := q.code, delays := q.delays)
             && (Parked(j) ==> r == Some(NonSense))
    requires DelayInv(q.delays, q.st, q.ret)
    ensures Inv(Elect(q))
  {
    RunnerReady(s);
    BlockCore(s, q, j, r);
    SlotInvOther(s.ipcs, s.st, s.sentTo, Current(s), j);
    ElectMid(q);
  }

  lemma ExitKeeps(s: State, result: nat)
    requires Steady(s) && s.sched.current.Some?
    ensures Inv(Exit(s, result))
  {
    RunnerReady(s);
    var c, j := Current(s), if result != 0 then Aborting else Finished;
    DelayInvBlock(s.delays, s.st, s.ret, c, j, Some(NonSense));
    var q := s.(code := s.code[c := result], st := s.st[c := j], ret := s.ret[c := Some(NonSense)]);
    LeaveKeeps(s, q, j, Some(NonSense));
  }

  lemma FaultKeeps(s: State)
    requires Steady(s) && s.sched.current.Some?
    ensures Inv(UserFault(s))
  {
    RunnerReady(s);
    var c := Current(s);
    DelayInvBlock(s.delays, s.st, s.ret, c, Fault, s.ret[c]);
    var q := SetState(s, c, Fault);
    assert q.ret == s.ret[c := q.ret[c]];
    LeaveKeeps(s, q, Fault, q.ret[c]);
  }

  /** A ready task that is not held can be given any return value. */
  lemma ElectedRet(q: State, t: nat, r: Option<Status>)
    requires Inv(q) && t < q.N() && q.st[t] == Ready && !Held(q, t)
    ensures Inv(q.(ret := q.ret[t := r])) && Current(q.(ret := q.ret[t := r])) == Current(q)
  {
    NoDelayWhenReady(q.delays, q.st, q.ret, t);
    var p := q.(ret := q.ret[t := r]);
    assert forall u, m :: 0 <= u < q.N() && NothingPending(q, u, m) ==> NothingPending(p, u, m);
  }

  lemma SetRetKeeps(s: State, r: Status)
    requires Steady(s)
    ensures Inv(SetRet(s, Current(s), r)) && (r != NonSense ==> Clear(SetRet(s, Current(s), r)))
  {
    RunnerReady(s);
    ElectedRet(s, Current(s), Some(r));
  }

  lemma SleepKeeps(s: State, ms: nat, mode: nat)
    requires Steady(s) && s.sched.current.Some?
    ensures Inv(Sleep(s, ms, mode))
  {
    if mode > SLEEP_MODE_DEEP {
      SetRetKeeps(s, Invalid);
    } else {
      RunnerReady(s);
      DelayRoom(s);
      var c, j := Current(s), if mode == SLEEP_MODE_DEEP then SleepingDeep else Sleeping;
      DelayInvAdd(s.delays, s.st, s.ret, c, ms, j, Some(NonSense));
      LeaveKeeps(s, SetRet(SetState(DelayAdd(s, c, ms), c, j), c, NonSense), j, Some(NonSense));
    }
  }

  lemma YieldKeeps(s: State)
    requires Steady(s)
    ensures Inv(Yield(s))
  {
    ElectMid(s);
    RunnerReady(s);
    ElectCore(s);
    ElectedRet(Elect(s), Current(s), Some(Ok));
  }

  // ---- Events that may wake their receiver ------------------------------------------------------------

  ghost predicate WakeInvExcept(s: State, t: nat)
    requires WF(s)
  {
    forall u :: 0 <= u < s.N() && u != t && s.st[u] == WaitForEvent ==> NothingPending(s, u, s.mask[u])
  }

  lemma WakeInvWoken(s: State, q: State, t: nat)
    requires WF(s) && WF(q) && t < s.N() && WakeInvExcept(s, t) && q.N() == s.N()
    requires q.st == s.st[t := Ready] && q.mask == s.mask
    requires q.sigs == s.sigs && q.ints == s.ints && q.dmas == s.dmas && q.ipcs == s.ipcs
    ensures WakeInv(q)
  {
    forall u | 0 <= u < q.N() && q.st[u] == WaitForEvent ensures NothingPending(q, u, q.mask[u]) {
      assert NothingPending(s, u, s.mask[u]);
    }
  }

  /** After an event was stored for `t`, the wake-up test restores the invariant. */
  lemma WakeFinish(s: State, t: nat)
    requires Core(s) && Mail(s) && t < s.N() && WakeInvExcept(s, t)
    requires s.sched.current.Some? && Wakeable(s.st[t]) ==> Current(s) != t
    ensures var q := WakeIfWaiting(s, t, s.st[t]);
            && Mid(q) && Current(q) == Current(s) && BlockedRunner(q.sched, q.st) == BlockedRunner(s.sched, s.st)
            && (forall u :: 0 <= u < s.N() && u != t ==> q.ret[u] == s.ret[u] && q.st[u] == s.st[u])
  {
    if Wakeable(s.st[t]) {
      WakeCore(s, t, Intr);
      SlotInvOther(s.ipcs, s.st, s.sentTo, t, Ready);
      WakeInvWoken(s, Wake(s, t, Intr), t);
    }
  }

  lemma IrqKeeps(s: State, owner: nat, irqn: nat)
    requires Inv(s) && owner < s.N() && !IsFull(s.ints[owner])
    ensures Inv(Irq(s, owner, irqn))
  {
    RunnerReady(s);
    WakeFinish(s.(ints := s.ints[owner := Push(s.ints[owner], irqn)]), owner);
  }

  lemma DmaKeeps(s: State, owner: nat, e: DmaEvent)
    requires Inv(s) && owner < s.N() && !IsFull(s.dmas[owner])
    ensures Inv(Dma(s, owner, e))
  {
    RunnerReady(s);
    WakeFinish(s.(dmas := s.dmas[owner := Push(s.dmas[owner], e)]), owner);
  }

  // ---- IPC ----------------------------------------------------------------------------------------------

  /** The send is refused before anything is stored. */
  ghost predicate SendRefused(s: State, target: nat, len: nat)
    requires WF(s)
  {
    len > MAX_PAYLOAD || target >= s.N() || Reaches(s.ipcs, target, Current(s))
  }

  lemma SlotInvSend(ipcs: seq<seq<nat>>, st: seq<JobState>, sentTo: seq<nat>, c: nat, target: nat, len: nat)
    requires SlotInv(ipcs, st, sentTo) && c < |st| && target < |st| && st[c] == Ready && 1 <= len <= MAX_PAYLOAD
    ensures SlotInv(Put(ipcs, target, c, len), st[c := IpcSendBlocked], sentTo[c := target])
  {
  }

  lemma GraphInvSend(ipcs: seq<seq<nat>>, c: nat, target: nat, len: nat)
    requires GraphInv(ipcs) && c < |ipcs| && target < |ipcs| && 1 <= len
    requires c != target && !Reaches(ipcs, target, c)
    ensures GraphInv(Put(ipcs, target, c, len))
  {
    NewEdgeAcyclic(ipcs, Put(ipcs, target, c, len), c, target);
  }

  lemma RowEmptyPut(rows: seq<seq<nat>>, dst: nat, src: nat, v: nat, u: nat)
    requires dst < |rows| && src < |rows[dst]| && RowEmpty(rows, u) && (u != dst || v == 0)
    ensures RowEmpty(Put(rows, dst, src, v), u)
  {
  }

  lemma PutSame(rows: seq<seq<nat>>, dst: nat, src: nat)
    requires dst < |rows| && src < |rows[dst]|
    ensures Put(rows, dst, src, rows[dst][src]) == rows
  {
    assert rows[dst][src := rows[dst][src]] == rows[dst];
  }

  /** The sender's state once its message is stored and it is blocked. */
  ghost function SentState(s: State, target: nat, len: nat): State
    requires WF(s) && target < s.N()
  {
    var c := Current(s);
    s.(ipcs := Put(s.ipcs, target, c, len), st := s.st[c := IpcSendBlocked], ret := s.ret[c := Some(NonSense)],
       sentTo := s.sentTo[c := target])
  }

  lemma SentMid(s: State, target: nat, len: nat)
    requires Steady(s) && s.sched.current.Some? && !SendRefused(s, target, len)
    requires target != Current(s) && len >= 1
    ensures var b := SentState(s, target, len);
            Core(b) && Mail(b) && WakeInvExcept(b, target) && Current(b) == Current(s)
  {
    RunnerReady(s);
    var c, b := Current(s), SentState(s, target, len);
    DelayInvBlock(s.delays, s.st, s.ret, c, IpcSendBlocked, Some(NonSense));
    BlockCore(s, b, IpcSendBlocked, Some(NonSense));
    SlotInvSend(s.ipcs, s.st, s.sentTo, c, target, len);
    GraphInvSend(s.ipcs, c, target, len);
    forall u | 0 <= u < s.N() && u != target && b.st[u] == WaitForEvent ensures NothingPending(b, u, b.mask[u]) {
      assert NothingPending(s, u, s.mask[u]);
      if RowEmpty(s.ipcs, u) {
        RowEmptyPut(s.ipcs, target, c, len, u);
      }
    }
  }

  lemma SendAccepted(s: State, target: nat, len: nat)
    requires Inv(s) && s.sched.current.Some? && !SendRefused(s, target, len)
    ensures var c := Current(s);
            SendIpc(s, target, len) ==
              if target == c then SetRet(s.(ipcs := Put(s.ipcs, c, c, len)), c, Invalid)
              else var b := SentState(s, target, len); Elect(WakeIfWaiting(b, target, b.st[target]))
  {
    DetectExact(s.ipcs, s.size, Current(s), target);
  }

  lemma SendRefusal(s: State, target: nat, len: nat)
    requires Inv(s) && SendRefused(s, target, len)
    ensures SendIpc(s, target, len) ==
            SetRet(s, Current(s), if len <= MAX_PAYLOAD && Reaches(s.ipcs, target, Current(s)) then DeadLk else Invalid)
  {
    if len <= MAX_PAYLOAD {
      DetectExact(s.ipcs, s.size, Current(s), target);
    }
  }

  /** Sending keeps the invariant: refused sends, the self-send of nothing, and every other
      send of at least one byte to another task. */
  lemma SendIpcKeeps(s: State, target: nat, len: nat)
    requires Steady(s) && s.sched.current.Some?
    requires SendRefused(s, target, len) || (target == Current(s) <==> len == 0)
    ensures Inv(SendIpc(s, target, len))
  {
    hide SendIpc, WakeIfWaiting, Elect;
    var c := Current(s);
    if SendRefused(s, target, len) {
      SendRefusal(s, target, len);
      SetRetKeeps(s, if len <= MAX_PAYLOAD && Reaches(s.ipcs, target, c) then DeadLk else Invalid);
    } else {
      SendAccepted(s, target, len);
      if target == c {
        RunnerReady(s);
        PutSame(s.ipcs, c, c);
        SetRetKeeps(s, Invalid);
      } else {
        var b := SentState(s, target, len);
        SentMid(s, target, len);
        WakeFinish(b, target);
        ElectMid(WakeIfWaiting(b, target, b.st[target]));
      }
    }
  }

  // ---- Signals --------------------------------------------------------------------------------------------

  /** The state after a signal was stored for a waiting task: ready, but still in the delay
      queue and still without a return value. */
  ghost function Signalled(s: State, sig: nat, src: nat, dst: nat): State
    requires WF(s) && src < s.N() && dst < s.N()
  {
    s.(sigs := Put(s.sigs, dst, src, sig), st := s.st[dst := Ready],
       sched := s.sched.WithActive(Insert(s.sched.Active(), dst, s.meta[dst])))
  }

  lemma PushEffect(s: State, sig: nat, src: nat, dst: nat)
    requires Core(s) && src < s.N() && SigFree(s, src, dst) && s.st[dst] == WaitForEvent
    requires s.sched.current.Some? ==> Current(s) != dst
    ensures PushSig(s, sig, src, dst) == Signalled(s, sig, src, dst)
  {
    ReadyUp(s.sched, s.size, s.meta, s.st, s.started, dst);
  }

  lemma InsertedHolds(sc: Sched, size: nat, meta: seq<Meta>, t: nat)
    requires sc.Shaped(size) && t < |meta|
    ensures Holds(sc.WithActive(Insert(sc.Active(), t, meta[t])).Active().cells, t)
  {
    var a := sc.Active();
    assert IsFor(Insert(a, t, meta[t]).cells[InsertCell(a.cells)], t);
  }

  /** A task that is already in the active jobset is not scheduled again. */
  lemma WakeAgain(p: State, t: nat)
    requires WF(p) && t < p.N() && Holds(p.sched.Active().cells, t) && p.sched.Active().num <= p.size
    ensures Wake(p, t, Intr) == p.(st := p.st[t := Ready], ret := p.ret[t := Some(Intr)],
                                   delays := DelayDel(p, t).delays)
  {
  }

  lemma SignalledActive(sc: Sched, size: nat, meta: seq<Meta>, st: seq<JobState>, started: seq<bool>, t: nat)
    requires SchedInv(sc, size, meta, st, started) && Dormant(st, started) && MetaOk(meta)
    requires t < |st| && st[t] != Ready && (sc.current.Some? ==> sc.Running(0) != t)
    ensures var a := sc.WithActive(Insert(sc.Active(), t, meta[t])).Active(); Holds(a.cells, t) && a.num <= size
  {
    InsertedHolds(sc, size, meta, t);
    ReadyUp(sc, size, meta, st, started, t);
    SizeBounds(sc.WithActive(Insert(sc.Active(), t, meta[t])).Active().cells);
  }

  /** Storing a signal for a waiting task makes it ready twice over: once in the store, once in
      the gate. The second attempt to schedule it is refused, so the effect is one wake-up. */
  lemma PushThenWake(s: State, sig: nat, src: nat, dst: nat)
    requires Core(s) && src < s.N() && SigFree(s, src, dst) && s.st[dst] == WaitForEvent
    requires s.sched.current.Some? ==> Current(s) != dst
    ensures Wake(PushSig(s, sig, src, dst), dst, Intr) == Woken(StoreSig(s, sig, src, dst), dst, Intr)
  {
    hide PushSig, Wake, SchedInv, DelayInv, RetInv, Dormant;
    PushEffect(s, sig, src, dst);
    SignalledActive(s.sched, s.size, s.meta, s.st, s.started, dst);
    var p := Signalled(s, sig, src, dst);
    WakeAgain(p, dst);
    assert p.st[dst := Ready] == s.st[dst := Ready];
  }

  lemma SigInvPut(sigs: seq<seq<nat>>, dst: nat, src: nat, v: nat)
    requires SigInv(sigs) && dst < |sigs| && src < |sigs| && v <= SIGNAL_USR2
    ensures SigInv(Put(sigs, dst, src, v))
  {
  }

  lemma StoredExcept(s: State, dst: nat, src: nat, sig: nat)
    requires Mid(s) && dst < s.N() && src < s.N() && sig <= SIGNAL_USR2
    ensures var p := StoreSig(s, sig, src, dst); Core(p) && Mail(p) && WakeInvExcept(p, dst)
  {
    SigInvPut(s.sigs, dst, src, sig);
    var p := StoreSig(s, sig, src, dst);
    forall u | 0 <= u < s.N() && u != dst && s.st[u] == WaitForEvent ensures NothingPending(p, u, p.mask[u]) {
      assert NothingPending(s, u, s.mask[u]);
      if RowEmpty(s.sigs, u) {
        RowEmptyPut(s.sigs, dst, src, sig, u);
      }
    }
  }

  ghost predicate SignalRefused(s: State, target: nat, sig: nat)
    requires WF(s)
  {
    Current(s) == target || sig < SIGNAL_ABORT || sig > SIGNAL_USR2 || !SigFree(s, Current(s), target)
  }

  lemma SignalRefusal(s: State, target: nat, sig: nat)
    requires WF(s) && SignalRefused(s, target, sig)
    ensures var q := SendSignal(s, target, sig); q == SetRet(s, Current(s), Invalid) || q == SetRet(s, Current(s), Busy)
  {
  }

  lemma SignalAccepted(s: State, target: nat, sig: nat)
    requires Core(s) && Settled(s) && !SignalRefused(s, target, sig)
    ensures var p := StoreSig(s, sig, Current(s), target);
            SendSignal(s, target, sig) == SetRet(WakeIfWaiting(p, target, p.st[target]), Current(s), Ok)
  {
    if s.st[target] == WaitForEvent {
      PushThenWake(s, sig, Current(s), target);
      WakeEffect(StoreSig(s, sig, Current(s), target), target, Intr);
    }
  }

  lemma SendSignalKeeps(s: State, target: nat, sig: nat)
    requires Steady(s) && s.sched.current.Some?
    ensures Inv(SendSignal(s, target, sig))
  {
    hide SendSignal, WakeIfWaiting, Core, Mail, WakeInv, WakeInvExcept;
    InvShape(s);
    if SignalRefused(s, target, sig) {
      SignalRefusal(s, target, sig);
      SetRetKeeps(s, Invalid);
      SetRetKeeps(s, Busy);
    } else {
      var p := StoreSig(s, sig, Current(s), target);
      SignalAccepted(s, target, sig);
      StoredExcept(s, target, Current(s), sig);
      WakeFinish(p, target);
      SetRetKeeps(WakeIfWaiting(p, target, p.st[target]), Ok);
    }
  }

  /** The alarm table concerns no other part of the invariant. */
  lemma AlarmsOnly(s: State, alarms: seq<AlarmCell>)
    requires Inv(s) && |alarms| == s.size && Handlers(alarms, s.N()) && AlarmInv(alarms)
    ensures Inv(s.(alarms := alarms)) && Current(s.(alarms := alarms)) == Current(s)
  {
    var q := s.(alarms := alarms);
    assert forall u, m :: 0 <= u < s.N() && NothingPending(s, u, m) ==> NothingPending(q, u, m);
  }
}
