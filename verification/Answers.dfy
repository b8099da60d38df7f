/** What a caller is answered, and what a request has then done. */
module Answers {
  import opened Slots
  import opened Rings
  import opened Exchange
  import opened IpcGraph
  import opened Rrmq
  import opened KernelSpec
  import opened Invariants
  import opened GateProofs
  import opened EventProofs
  import opened TickProofs
  import opened Protocol
  import opened Moves
  import opened Carriage
  import opened Delivery
  import opened Columns
  import opened BoundedWaiting
  import opened Integrity

  // ---- Waiting for events --------------------------------------------------------------------------------

  /** The signal of task `src` was pending and wanted; the caller's area decodes to it. */
  ghost predicate GivenSignal(s: State, mask: bv8, q: State, src: nat)
    requires WF(s) && WF(q) && q.N() == s.N()
  {
    var c := Current(s);
    && Wants(mask, EVENT_SIGNAL) && src < s.N() && s.sigs[c][src] != 0
    && Decodes(q.exch[c], 2, s.meta[src].handle, Le32(s.sigs[c][src])) && q.sigs[c][src] == 0
  }

  /** An interrupt was pending and wanted; the caller's area decodes to the oldest. */
  ghost predicate GivenInterrupt(s: State, mask: bv8, devh: nat, q: State)
    requires WF(s) && WF(q) && q.N() == s.N()
  {
    var c := Current(s);
    && Wants(mask, EVENT_IRQ) && |Contents(s.ints[c])| > 0
    && Decodes(q.exch[c], 4, devh, Le32(Contents(s.ints[c])[0]))
    && |Contents(q.ints[c])| == |Contents(s.ints[c])| - 1
  }

  /** A DMA event was pending and wanted; the caller's area decodes to the oldest. */
  ghost predicate GivenDma(s: State, mask: bv8, q: State)
    requires WF(s) && WF(q) && q.N() == s.N()
  {
    var c := Current(s);
    && Wants(mask, EVENT_DMA) && |Contents(s.dmas[c])| > 0
    && (Contents(s.dmas[c])[0].stream < 0x1_0000_0000 ==>
          Decodes(q.exch[c], 8, Contents(s.dmas[c])[0].stream, [Contents(s.dmas[c])[0].event % 256]))
    && Contents(q.dmas[c]) == Contents(s.dmas[c])[1..]
  }

  /** A message of task `src` was pending and wanted; the caller's area decodes to its bytes. */
  ghost predicate GivenMessage(s: State, mask: bv8, q: State, src: nat)
    requires WF(s) && WF(q) && q.N() == s.N()
  {
    var c := Current(s);
    && Wants(mask, EVENT_IPC) && src < s.N() && 0 < s.ipcs[c][src] <= MAX_PAYLOAD
    && Decodes(q.exch[c], 1, s.meta[src].handle, s.exch[src][..s.ipcs[c][src]]) && q.ipcs[c][src] == 0
  }

  /** The caller has been given an event of a kind it asked for that was pending. */
  ghost predicate Given(s: State, mask: bv8, devh: nat, q: State)
    requires WF(s) && WF(q) && q.N() == s.N()
  {
    || (exists src :: GivenSignal(s, mask, q, src))
    || GivenInterrupt(s, mask, devh, q)
    || GivenDma(s, mask, q)
    || (exists src :: GivenMessage(s, mask, q, src))
  }

  lemma GivesSignal(s: State, mask: bv8, timeout: int, devh: nat)
    requires Inv(s) && TakesSignal(s, mask).Some?
    ensures var q := WaitEvent(s, mask, timeout, devh);
            GivenSignal(s, mask, q, TakesSignal(s, mask).value) && q.ret[Current(s)] == Some(Ok)
  {
    SignalDelivered(s, mask, timeout, devh);
    hide Decodes, Le32, FromLe32, WaitEvent, Inv;
  }

  lemma GivesInterrupt(s: State, mask: bv8, timeout: int, devh: nat)
    requires WF(s) && TakesInterrupt(s, mask) && devh < 0x1_0000_0000
    ensures var q := WaitEvent(s, mask, timeout, devh);
            GivenInterrupt(s, mask, devh, q) && q.ret[Current(s)] == Some(Ok)
  {
    InterruptDelivered(s, mask, timeout, devh);
    PopClearExact(s.ints[Current(s)]);
    hide Decodes, Le32, FromLe32, WaitEvent, PopClear;
  }

  lemma GivesDma(s: State, mask: bv8, timeout: int, devh: nat)
    requires WF(s) && TakesDma(s, mask)
    ensures var q := WaitEvent(s, mask, timeout, devh);
            GivenDma(s, mask, q) && q.ret[Current(s)] == Some(Ok)
  {
    DmaDelivered(s, mask, timeout, devh);
    hide Decodes, WaitEvent;
  }

  lemma GivesMessage(s: State, mask: bv8, timeout: int, devh: nat)
    requires Inv(s) && TakesIpc(s, mask).Some?
    ensures var q := WaitEvent(s, mask, timeout, devh);
            GivenMessage(s, mask, q, TakesIpc(s, mask).value) && q.ret[Current(s)] == Some(Ok)
  {
    hide Decodes, WaitEvent, TakeIpc, Inv, SchedInv, WriteEvent, Insert;
    InvSched(s);
    var c, src := Current(s), TakesIpc(s, mask).value;
    WaitTakes(s, mask, timeout, devh);
    TakeIpcEffect(s, src);
    WholePayload(s, c, src);
    WrittenDecodes(s.exch[c], 1, s.meta[src].handle, Payload(s, c, src));
  }

  lemma WholePayload(s: State, t: nat, src: nat)
    requires Inv(s) && t < s.N() && src < s.N()
    ensures s.ipcs[t][src] <= MAX_PAYLOAD && Payload(s, t, src) == s.exch[src][..s.ipcs[t][src]]
  {
    assert s.ipcs[t][src] % 256 == s.ipcs[t][src];
  }

  /** The caller is answered OK if and only if an event of a kind it asked for was pending, and then
      it has been given one. It is answered AGAIN if and only if none was pending and it does not
      want to wait, and then nothing else has changed. Otherwise it is parked, with no answer yet. */
  lemma WaitAnswers(s: State, mask: bv8, timeout: int, devh: nat)
    requires Steady(s) && devh < 0x1_0000_0000
    ensures var q, c := WaitEvent(s, mask, timeout, devh), Current(s);
            && (q.ret[c] == Some(Ok) <==> !NothingPending(s, c, mask))
            && (q.ret[c] == Some(Ok) <==> Given(s, mask, devh, q))
            && (q.ret[c] == Some(Again) <==> NothingPending(s, c, mask) && timeout == -1)
            && (q.ret[c] == Some(Again) ==> q == s.(ret := s.ret[c := Some(Again)]))
            && (NothingPending(s, c, mask) && timeout != -1 ==>
                  q.st[c] == WaitForEvent && q.ret[c] == Some(NonSense))
  {
    InvShape(s);
    NothingFound(s, mask);
    TakesOne(s, mask);
    hide Inv, NothingToTake, TakesInterrupt, TakesDma, WaitEvent, TakesSignal, TakesIpc, NothingPending;
    if NothingToTake(s, mask) {
      NothingGiven(s, mask, timeout, devh);
    } else if TakesSignal(s, mask).Some? {
      GivesSignal(s, mask, timeout, devh);
    } else if TakesInterrupt(s, mask) {
      GivesInterrupt(s, mask, timeout, devh);
    } else if TakesDma(s, mask) {
      GivesDma(s, mask, timeout, devh);
    } else {
      GivesMessage(s, mask, timeout, devh);
    }
  }

  lemma NothingGiven(s: State, mask: bv8, timeout: int, devh: nat)
    requires Inv(s) && NothingToTake(s, mask)
    ensures var q, c := WaitEvent(s, mask, timeout, devh), Current(s);
            && !Given(s, mask, devh, q)
            && (timeout == -1 ==> q == s.(ret := s.ret[c := Some(Again)]))
            && (timeout != -1 ==> q.st[c] == WaitForEvent && q.ret[c] == Some(NonSense))
  {
    EmptyMailbox(s, mask);
    InvShape(s);
    WaitCases(s, mask, timeout, devh);
    TakesOne(s, mask);
    hide Inv, NothingToTake, TakesInterrupt, TakesDma, WaitEvent, TakesSignal, TakesIpc, NothingPending, Elect, Given;
    NotGiven(s, mask, devh, WaitEvent(s, mask, timeout, devh));
    ElectCarries(WaitingState(s, mask, timeout));
    ElectStates(WaitingState(s, mask, timeout));
  }

  lemma ElectStates(s: State)
    requires WF(s)
    ensures Elect(s).st == s.st
  {
  }

  lemma NotGiven(s: State, mask: bv8, devh: nat, q: State)
    requires WF(s) && WF(q) && q.N() == s.N() && NothingPending(s, Current(s), mask)
    ensures !Given(s, mask, devh, q)
  {
    RingSize(s.ints[Current(s)]);
    RingSize(s.dmas[Current(s)]);
    hide Decodes;
  }

  // ---- The other gates -----------------------------------------------------------------------------------

  /** A send is answered DEADLK exactly when a chain of pending messages leads from the target back to
      the caller, INVALID when it is too long or goes to nobody or to the caller, and otherwise not
      yet: the caller is blocked and its message is in the target's slot. */
  lemma SendAnswers(s: State, target: nat, len: nat)
    requires Inv(s) && s.sched.current.Some?
    ensures var q, c := SendIpc(s, target, len), Current(s);
            var chain := Reaches(s.ipcs, target, c);
            && (q.ret[c] == Some(DeadLk) <==> len <= MAX_PAYLOAD && chain)
            && (q.ret[c] == Some(Invalid) <==> len > MAX_PAYLOAD || (!chain && (target >= s.N() || target == c)))
            && (q.ret[c] != Some(DeadLk) && q.ret[c] != Some(Invalid) ==>
                  q.ret[c] == Some(NonSense) && q.st[c] == IpcSendBlocked && q.ipcs[target][c] == len)
            && (len > MAX_PAYLOAD || chain || target >= s.N() ==> q == s.(ret := q.ret))
  {
    hide SendIpc, Inv, Reaches, Elect, WakeIfWaiting;
    InvShape(s);
    if SendRefused(s, target, len) {
      SendRefusal(s, target, len);
    } else {
      SendAccepted(s, target, len);
      if target != Current(s) {
        RetSent(s, target, len);
        var b := SentState(s, target, len);
        WakeFrame(b, target);
        ElectStates(WakeIfWaiting(b, target, b.st[target]));
        ElectCarries(WakeIfWaiting(b, target, b.st[target]));
      }
    }
  }

  /** A signal is answered INVALID exactly for an unknown target, the caller itself or a number that
      is no signal, BUSY exactly when otherwise the slot is taken, and OK when it has been stored. */
  lemma SignalAnswers(s: State, target: nat, sig: nat)
    requires Inv(s) && s.sched.current.Some?
    ensures var q, c := SendSignal(s, target, sig), Current(s);
            var valid := target < s.N() && target != c && 1 <= sig <= 12;
            && (q.ret[c] == Some(Invalid) <==> !valid)
            && (q.ret[c] == Some(Busy) <==> valid && s.sigs[target][c] != 0)
            && (q.ret[c] == Some(Ok) <==> valid && s.sigs[target][c] == 0)
            && (q.ret[c] == Some(Ok) ==> q.sigs[target][c] == sig)
            && (q.ret[c] != Some(Ok) ==> q == s.(ret := q.ret))
  {
    if SignalRefused(s, target, sig) {
    } else {
      SignalAccepted(s, target, sig);
      hide SendSignal, WakeIfWaiting, Inv, DelaysCarried;
      var p := StoreSig(s, sig, Current(s), target);
      WakeCarries(p, target, p.st[target]);
    }
  }

  /** A sleep is answered INVALID exactly for an unknown mode, and then nothing else has changed;
      otherwise the caller sleeps, with no answer yet. */
  lemma SleepAnswers(s: State, ms: nat, mode: nat)
    requires Inv(s)
    ensures var q, c := Sleep(s, ms, mode), Current(s);
            && (q.ret[c] == Some(Invalid) <==> mode > 1)
            && (mode > 1 ==> q == s.(ret := q.ret))
            && (mode <= 1 ==> q.ret[c] == Some(NonSense) && q.st[c] == if mode == 1 then SleepingDeep else Sleeping)
  {
    DelayRoom(s);
    hide ElectSched, SchedInv, Mail, WakeInv, DelayInv, RetInv, Dormant;
  }

  /** An exit stores its code; the caller is aborting exactly when the code is not zero. */
  lemma ExitAnswers(s: State, result: nat)
    requires WF(s)
    ensures var q, c := Exit(s, result), Current(s);
            && q.code[c] == result && (forall t :: 0 <= t < s.N() && t != c ==> q.code[t] == s.code[t])
            && q.st[c] == if result == 0 then Finished else Aborting
  {
    hide ElectSched;
  }

  /** A yield is answered OK and changes nothing but the running job. */
  lemma YieldAnswers(s: State)
    requires WF(s)
    ensures var q, c := Yield(s), Current(s);
            q.ret == s.ret[c := Some(Ok)] && q == s.(ret := q.ret, sched := q.sched, panicked := q.panicked)
  {
    hide ElectSched;
  }

  /** A start is answered DENIED exactly without the capability, INVALID exactly for an unknown
      label, and OK when a task that was never started has been given to the scheduler. */
  lemma StartAnswers(s: State, target: nat, allowed: bool)
    requires Inv(s) && Legal(s, DoStart(target, allowed))
    ensures var q, c := Start(s, target, allowed), Current(s);
            && (q.ret[c] == Some(Denied) <==> !allowed)
            && (q.ret[c] == Some(Invalid) <==> allowed && target >= s.N())
            && (q.ret[c] == Some(Ok) <==> allowed && target < s.N())
            && (q.ret[c] == Some(Ok) ==> q.started == s.started[target := true])
            && (q.ret[c] != Some(Ok) ==> q == s.(ret := q.ret))
  {
    if allowed && target < s.N() {
      StartEffect(s, target);
    }
    InvShape(s);
    hide Inv, Schedule, Insert;
  }

  /** An alarm is answered BUSY exactly when every cell is in use, and otherwise OK; then one free
      cell has become an alarm of the caller and nothing else has changed. */
  lemma AlarmAnswers(s: State, ms: nat, periodic: bool)
    requires WF(s)
    ensures var q, c := SetAlarm(s, ms, periodic), Current(s);
            && (q.ret[c] == Some(Busy) <==> forall i :: 0 <= i < s.size ==> s.alarms[i].active)
            && (q.ret[c] == Some(Busy) ==> q == s.(ret := q.ret))
            && (q.ret[c] != Some(Busy) ==>
                  q.ret[c] == Some(Ok) && exists i :: 0 <= i < s.size && TakesAlarm(s, q, i, c, ms, periodic))
  {
    var i, c := FirstFree(s.alarms), Current(s);
    if AlarmHasRoom(s) {
      assert TakesAlarm(s, SetAlarm(s, ms, periodic), i, c, ms, periodic);
    }
  }

  /** Free alarm cell `i` has become an alarm of task `t`, due in `ms` milliseconds. */
  ghost predicate TakesAlarm(s: State, q: State, i: nat, t: nat, ms: nat, periodic: bool) {
    && i < |s.alarms| == |q.alarms| && !s.alarms[i].active && IsFor(q.alarms[i], t)
    && q.alarms[i].data == AlarmData(SIGNAL_ALARM, ms, ms, periodic)
    && q == s.(ret := q.ret, alarms := s.alarms[i := q.alarms[i]])
  }

  /** Active alarm cell `i` of task `t` with period `ms` has been freed, and it is the first such. */
  ghost predicate FreesAlarm(s: State, q: State, i: nat, t: nat, ms: nat) {
    && i < |s.alarms| == |q.alarms| && IsFor(s.alarms[i], t) && s.alarms[i].data.wait == ms
    && (forall j :: 0 <= j < i ==> !(IsFor(s.alarms[j], t) && s.alarms[j].data.wait == ms))
    && !q.alarms[i].active && q == s.(ret := q.ret, alarms := s.alarms[i := q.alarms[i]])
  }

  /** A stop is answered NO_ENTITY exactly when the caller has no alarm of that period, and otherwise
      OK; then the first such alarm is gone and nothing else has changed. */
  lemma StopAnswers(s: State, ms: nat)
    requires WF(s)
    ensures var q, c := StopAlarm(s, ms), Current(s);
            && (q.ret[c] == Some(NoEntity) <==>
                  forall i :: 0 <= i < s.size ==> !(IsFor(s.alarms[i], c) && s.alarms[i].data.wait == ms))
            && (q.ret[c] == Some(NoEntity) ==> q == s.(ret := q.ret))
            && (q.ret[c] != Some(NoEntity) ==>
                  q.ret[c] == Some(Ok) && exists i :: 0 <= i < s.size && FreesAlarm(s, q, i, c, ms))
  {
    var i, c := FirstAlarm(s.alarms, Current(s), ms, 0), Current(s);
    if i < s.size {
      assert FreesAlarm(s, StopAlarm(s, ms), i, c, ms);
    }
  }

  // ---- Events for others -----------------------------------------------------------------------------------

  /** The step brings task `t` a message, a signal, an interrupt or a DMA event. */
  ghost predicate EventFor(s: State, a: Action, t: nat)
    requires WF(s)
  {
    match a
    case DoSendIpc(target, len) => target == t != Current(s) && !SendRefused(s, target, len)
    case DoSendSignal(target, sig) => target == t && !SignalRefused(s, target, sig)
    case DoIrq(owner, _) => owner == t
    case DoDma(owner, _) => owner == t
    case _ => false
  }

  /** An event of any kind wakes a task that sleeps lightly or waits for events, with INTR, and
      leaves the state of any other task as it is. */
  lemma EventWakes(s: State, a: Action, t: nat)
    requires Steady(s) && EnvOk(s, a) && Legal(s, a) && EventFor(s, a, t) && t < s.N()
    ensures var q := Gate(s, a);
            if s.st[t] == Sleeping || s.st[t] == WaitForEvent then q.st[t] == Ready && q.ret[t] == Some(Intr)
            else t != Current(s) ==> q.st[t] == s.st[t] && q.ret[t] == s.ret[t]
  {
    hide Gate, Inv, Elects, Enqueue, Reaches, NewState, Rouses, EventFor, Legal, EnvOk, ElectSched;
    InvShape(s);
    RunnerReady(s);
    EventRouses(s, a, t);
    MovedGate(s, a);
    RetGate(s, a);
    if s.st[t] == Sleeping || s.st[t] == WaitForEvent {
      RousedStatus(s, a);
    }
  }

  lemma EventRouses(s: State, a: Action, t: nat)
    requires WF(s) && Legal(s, a) && EventFor(s, a, t) && t < s.N()
    ensures Rouses(s, a) == (if s.st[t] == Sleeping || s.st[t] == WaitForEvent then Some(t) else None)
    ensures !a.DoTick? && !a.DoStart? && !a.DoWaitEvent?
  {
  }

  // ---- Return values over runs ------------------------------------------------------------------------------

  lemma ReadyNotDue(s: State, t: nat)
    requires Inv(s) && t < s.N() && s.st[t] == Ready && !Held(s, t)
    ensures !DueTo(s.delays, t, s.size)
  {
    NoDelayWhenReady(s.delays, s.st, s.ret, t);
  }

  lemma ReadyNotRoused(s: State, a: Action, t: nat)
    requires Inv(s) && Legal(s, a) && !a.DoTick? && t in ReadySet(s.st, s.started)
    ensures Rouses(s, a) != Some(t)
  {
    if Rouses(s, a) == Some(t) {
      RousesBlocked(s, a);
    }
  }

  /** No step changes the return value of a ready task that does not run. */
  lemma GateLeavesRet(s: State, a: Action, t: nat)
    requires Steady(s) && EnvOk(s, a) && Legal(s, a) && !Trips(s, a)
    requires t in ReadySet(s.st, s.started) && t != Current(s) && !Held(s, t)
    ensures t < |Gate(s, a).ret| && Gate(s, a).ret[t] == s.ret[t]
  {
    ReadyTask(s, t);
    hide Inv, Legal, EnvOk, Gate, ReadySet, Held, Rouses, Jammed, Misfired, DueTo, Tick;
    InvShape(s);
    if a.DoTick? {
      TickGate(s, a);
      TickColumns(s, t);
      ReadyNotDue(s, t);
    } else {
      RetGate(s, a);
      ReadyNotRoused(s, a, t);
    }
  }

  lemma ReadyTask(s: State, t: nat)
    requires WF(s) && t in ReadySet(s.st, s.started)
    ensures t < s.N() && s.st[t] == Ready
  {
  }

  /** The step takes the core to task `t`, which is handed `r`. */
  ghost predicate Hands(s: State, a: Action, t: nat, r: Option<Status>) {
    WF(s) && Current(Gate(s, a)) == t && t < |Gate(s, a).ret| && Gate(s, a).ret[t] == r
  }

  lemma StepLeavesRet(s: State, a: Action, t: nat)
    requires Steady(s) && EnvOk(s, a) && Legal(s, a) && !Trips(s, a)
    requires t in ReadySet(s.st, s.started) && t != Current(s) && !Held(s, t)
    ensures var q := Step(s, a);
            && t in ReadySet(q.st, q.started)
            && if Current(q) == t then Hands(s, a, t, s.ret[t]) else t < |q.ret| && q.ret[t] == s.ret[t]
  {
    hide Inv, Legal, EnvOk, Gate, Step, ReadySet, Trips, HandOff, Held, Patience, Wakes, Elections;
    InvShape(s);
    ReadyTask(s, t);
    PatienceStep(s, a, t);
    GateLeavesRet(s, a, t);
    StepKeeps(s, a);
    InvCalm(Step(s, a));
    HandOffFrame(Gate(s, a));
  }

  /** A return value a task was given while others ran is the one it is handed when it next gets
      the core. */
  lemma {:induction false} StatusReaches(trace: seq<State>, acts: seq<Action>, t: nat, r: Option<Status>, i: nat,
                                         k: nat)
    requires IsRun(trace, acts) && Steady(trace[0]) && i <= k < |acts| && !trace[k + 1].panicked
    requires t in ReadySet(trace[i].st, trace[i].started)
    requires t < |trace[i].ret| && trace[i].ret[t] == r != Some(NonSense)
    requires forall n :: i <= n <= k ==> WF(trace[n]) && Current(trace[n]) != t
    ensures WF(trace[k + 1]) && t in ReadySet(trace[k + 1].st, trace[k + 1].started)
    ensures if Current(trace[k + 1]) == t then Hands(trace[k], acts[k], t, r)
            else t < |trace[k + 1].ret| && trace[k + 1].ret[t] == r
    decreases k
  {
    hide IsRun, Inv, Clear, Legal, EnvOk, Step, ReadySet, Trips, Hands;
    RunStep(trace, acts, k);
    InvShape(trace[k + 1]);
    if k > i {
      StatusReaches(trace, acts, t, r, i, k - 1);
    }
    StepLeavesRet(trace[k], acts[k], t);
  }

  // ---- Exit codes and the clock -------------------------------------------------------------------------------

  predicate Exited(j: JobState) {
    j == Aborting || j == Finished
  }

  lemma ExitStep(s: State, a: Action, t: nat)
    requires Steady(s) && EnvOk(s, a) && Legal(s, a) && !Trips(s, a) && !a.DoTick? && t < s.N()
    ensures Exited(s.st[t]) ==> Step(s, a).code[t] == s.code[t]
    ensures !Exited(s.st[t]) && Exited(Step(s, a).st[t]) ==>
              && a.DoExit? && Current(s) == t && Step(s, a).code[t] == a.result
              && (Step(s, a).st[t] == Finished <==> a.result == 0)
  {
    hide Inv, Gate, Step, Trips, EnvOk, Legal, Elects, Enqueue, NewState, Rouses, ElectSched;
    InvShape(s);
    RunnerReady(s);
    NewStateExits(s, a);
    MovedStep(s, a);
    GateQueues(s, a);
    StepQueues(s, a);
  }

  lemma NewStateExits(s: State, a: Action)
    requires WF(s)
    ensures Exited(NewState(s, a)) <==> a.DoExit?
    ensures a.DoExit? ==> NewState(s, a) == if a.result == 0 then Finished else Aborting
  {
  }

  lemma ExitTick(s: State, t: nat)
    requires Steady(s) && !Trips(s, DoTick) && t < s.N()
    ensures Step(s, DoTick).code == s.code
    ensures Exited(Step(s, DoTick).st[t]) ==> Exited(s.st[t])
  {
    hide Inv, Step, Trips, Misfired, DueTo, AgedTo;
    InvShape(s);
    TickStepCarries(s);
  }

  /** A task that has exited holds the code of its own exit request, and is finished exactly when
      that was zero. */
  lemma {:induction false} ExitCode(trace: seq<State>, acts: seq<Action>, t: nat, k: nat) returns (j: nat)
    requires IsRun(trace, acts) && Steady(trace[0]) && k <= |acts| && !trace[k].panicked
    requires t < |trace[0].st| && !Exited(trace[0].st[t]) && t < |trace[k].st| && Exited(trace[k].st[t])
    ensures j < k && |trace| == |acts| + 1 && acts[j].DoExit? && WF(trace[j]) && Current(trace[j]) == t
    ensures t < |trace[k].code| && trace[k].code[t] == acts[j].result
    ensures trace[k].st[t] == if acts[j].result == 0 then Finished else Aborting
  {
    hide IsRun, Inv, Clear, Step, EnvOk, Legal, Trips;
    RunShape(trace, acts);
    if k == 0 {
      assert false;
    } else {
      RunStep(trace, acts, k - 1);
      InvShape(trace[k - 1]);
      InvShape(trace[k]);
      if acts[k - 1].DoTick? {
        ExitTick(trace[k - 1], t);
      } else {
        ExitStep(trace[k - 1], acts[k - 1], t);
      }
      if Exited(trace[k - 1].st[t]) {
        j := ExitCode(trace, acts, t, k - 1);
        TerminalNext(trace[k - 1], acts[k - 1], trace[k], t);
      } else {
        j := k - 1;
      }
    }
  }

  lemma TickCellClock(s: State, i: nat)
    requires WF(s) && i < s.size
    ensures TickJob(s, i).jiffies == s.jiffies && TickAlarm(s, i).jiffies == s.jiffies
  {
  }

  lemma {:induction false} TickLoopsClock(s: State, k: nat)
    requires WF(s) && k <= s.size
    ensures TickJobs(s, k).jiffies == s.jiffies && TickAlarms(s, k).jiffies == s.jiffies
  {
    hide TickJob, TickAlarm, WF;
    if k > 0 {
      TickLoopsClock(s, k - 1);
      TickCellClock(TickJobs(s, k - 1), k - 1);
      TickCellClock(TickAlarms(s, k - 1), k - 1);
    }
  }

  lemma TickClock(s: State)
    requires WF(s)
    ensures Tick(s).jiffies == s.jiffies + 1
  {
    hide TickJobs, TickAlarms, WF, ElectSched;
    var r := Refresh(Clock(s));
    hide Refresh;
    TickLoopsClock(r, s.size);
    TickLoopsClock(TickJobs(r, s.size), s.size);
  }

  /** The clock counts the ticks. */
  lemma {:induction false} ClockCounts(trace: seq<State>, acts: seq<Action>, k: nat)
    requires IsRun(trace, acts) && Steady(trace[0]) && k <= |acts| && !trace[k].panicked
    ensures trace[k].jiffies == trace[0].jiffies + TicksIn(acts, k)
  {
    hide IsRun, Inv, Clear, Step, EnvOk, Legal, Trips, Gate;
    RunShape(trace, acts);
    if k > 0 {
      RunStep(trace, acts, k - 1);
      ClockCounts(trace, acts, k - 1);
      var s, a := trace[k - 1], acts[k - 1];
      InvShape(s);
      StepQueues(s, a);
      if a.DoTick? {
        TickGate(s, a);
        TickClock(s);
      } else {
        GateQueues(s, a);
      }
    }
  }

  // ---- Waiting tasks and what they asked for ------------------------------------------------------------------

  lemma MaskStep(s: State, a: Action, t: nat)
    requires Steady(s) && EnvOk(s, a) && Legal(s, a) && !Trips(s, a) && t < s.N()
    requires Step(s, a).st[t] == WaitForEvent
    ensures if a.DoWaitEvent? && Current(s) == t then Step(s, a).mask[t] == a.mask
            else s.st[t] == WaitForEvent && Step(s, a).mask[t] == s.mask[t]
  {
    hide Inv, Gate, Step, Trips, EnvOk, Legal, Misfired, DueTo, AgedTo;
    InvShape(s);
    if a.DoTick? {
      TickStepCarries(s);
    } else {
      MaskMove(s, a, t);
    }
  }

  lemma MaskMove(s: State, a: Action, t: nat)
    requires Steady(s) && EnvOk(s, a) && Legal(s, a) && !Trips(s, a) && t < s.N() && !a.DoTick?
    requires Step(s, a).st[t] == WaitForEvent
    ensures if a.DoWaitEvent? && Current(s) == t then Step(s, a).mask[t] == a.mask
            else s.st[t] == WaitForEvent && Step(s, a).mask[t] == s.mask[t]
  {
    hide Inv, Gate, Step, Trips, EnvOk, Legal, Elects, Enqueue, NewState, Rouses, ElectSched, WaitEvent, TakesInterrupt;
    hide TakesDma, NothingToTake, PopClear, Pop;
    InvShape(s);
    NewStateWaits(s, a);
    MovedStep(s, a);
    GateQueues(s, a);
    Columns.StepQueues(s, a);
    if a.DoWaitEvent? {
      WaitQueues(s, a.mask, a.timeout, a.devh);
      WaitIsGate(s, a);
    }
  }

  lemma WaitIsGate(s: State, a: Action)
    requires WF(s) && a.DoWaitEvent?
    ensures Gate(s, a) == WaitEvent(s, a.mask, a.timeout, a.devh)
  {
  }

  lemma NewStateWaits(s: State, a: Action)
    requires WF(s)
    ensures NewState(s, a) == WaitForEvent <==> a.DoWaitEvent? && NothingToTake(s, a.mask) && a.timeout != -1
  {
  }

  /** Task `t` asked for `mask` at step `j` and has been waiting since. */
  ghost predicate AskedAt(trace: seq<State>, acts: seq<Action>, t: nat, mask: bv8, j: nat, k: nat) {
    && j < k <= |acts| < |trace| && acts[j].DoWaitEvent? && acts[j].mask == mask
    && WF(trace[j]) && Current(trace[j]) == t
    && forall n :: j < n <= k ==> t < |trace[n].st| && trace[n].st[t] == WaitForEvent
  }

  lemma {:induction false} WaitingFor(trace: seq<State>, acts: seq<Action>, t: nat, k: nat) returns (j: nat)
    requires IsRun(trace, acts) && Steady(trace[0]) && k <= |acts| && !trace[k].panicked
    requires t < |trace[0].st| && trace[0].st[t] != WaitForEvent && t < |trace[k].st| && trace[k].st[t] == WaitForEvent
    ensures t < |trace[k].mask| && AskedAt(trace, acts, t, trace[k].mask[t], j, k)
  {
    hide IsRun, Inv, Clear, Step, EnvOk, Legal, Trips;
    RunShape(trace, acts);
    if k == 0 {
      assert false;
    } else {
      RunStep(trace, acts, k - 1);
      InvShape(trace[k - 1]);
      InvShape(trace[k]);
      MaskStep(trace[k - 1], acts[k - 1], t);
      if acts[k - 1].DoWaitEvent? && Current(trace[k - 1]) == t {
        j := k - 1;
      } else {
        j := WaitingFor(trace, acts, t, k - 1);
      }
    }
  }

  /** No wake-up is lost: while a task waits, no event of a kind its request asked for is pending. */
  lemma WaitsForNothingPending(trace: seq<State>, acts: seq<Action>, t: nat, k: nat) returns (j: nat)
    requires IsRun(trace, acts) && Steady(trace[0]) && k <= |acts| && !trace[k].panicked
    requires t < |trace[0].st| && trace[0].st[t] != WaitForEvent && t < |trace[k].st| && trace[k].st[t] == WaitForEvent
    ensures j < |acts| && acts[j].DoWaitEvent? && AskedAt(trace, acts, t, acts[j].mask, j, k)
    ensures WF(trace[k]) && t < trace[k].N() && NothingPending(trace[k], t, acts[j].mask)
  {
    j := WaitingFor(trace, acts, t, k);
    RunKeeps(trace, acts, k);
    hide IsRun, NothingPending, AskedAt;
    assert WakeInv(trace[k]);
  }

  /** A fault puts the running task into its fault state and changes nothing else but the running job. */
  lemma FaultAnswers(s: State)
    requires WF(s)
    ensures var q, c := UserFault(s), Current(s);
            q.st == s.st[c := Fault] && q == s.(st := q.st, sched := q.sched, panicked := q.panicked)
  {
    hide ElectSched;
  }
}
