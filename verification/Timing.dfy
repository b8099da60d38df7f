/** Exact timing of delayed jobs and alarms, in ticks of any run. */
module Timing {
  import opened Slots
  import opened Exchange
  import opened IpcGraph
  import opened Rrmq
  import opened KernelSpec
  import opened Invariants
  import opened GateProofs
  import opened EventProofs
  import opened TickProofs
  import opened Protocol
  import opened Moves
  import opened Carriage

  /** Ticks a request of `ms` milliseconds lasts. */
  function Lasts(ms: nat): nat {
    if ms == 0 then 1 else ms
  }

  // ---- Delayed jobs ------------------------------------------------------------------------------------

  /** Task `t` waits in state `j`, and delay cell `i` will end the wait in `left` ticks. */
  ghost predicate Awaits(s: State, t: nat, j: JobState, i: nat, left: nat) {
    && t < |s.st| && s.st[t] == j && Waiting(j)
    && i < |s.delays| && IsFor(s.delays[i], t) && Lasts(s.delays[i].data.remaining) == left
  }

  /** An event other than the timeout ends the wait of task `t` at this step. */
  ghost predicate Interrupts(s: State, a: Action, t: nat)
    requires WF(s) && Legal(s, a)
  {
    if a.DoTick? then Misfired(s, t) else Rouses(s, a) == Some(t)
  }

  /** A deep sleeper is never interrupted. */
  lemma DeepUndisturbed(s: State, a: Action, t: nat)
    requires Inv(s) && Legal(s, a) && t < s.N() && s.st[t] == SleepingDeep
    ensures !Interrupts(s, a, t)
  {
    MisfiredWaits(s, t);
    if !a.DoTick? && Rouses(s, a) == Some(t) {
      RousesBlocked(s, a);
      if a.DoWaitEvent? {
        SenderBlocked(s, t);
      }
    }
  }

  lemma AwaitsMove(s: State, a: Action, t: nat, j: JobState, i: nat, left: nat)
    requires Steady(s) && EnvOk(s, a) && Legal(s, a) && !Trips(s, a) && !a.DoTick? && Awaits(s, t, j, i, left)
    ensures Interrupts(s, a, t) ==> Step(s, a).st[t] == Ready
    ensures !Interrupts(s, a, t) ==> Awaits(Step(s, a), t, j, i, left)
  {
    hide Step, Inv, EnvOk, Legal, Elects, Enqueue, SlotsAfter, AreasCarried, StoppedCell, Trips;
    InvShape(s);
    RunnerReady(s);
    MovedStep(s, a);
    CarriedStep(s, a);
  }

  /** Task `t` is ready with return value TIMEOUT. */
  ghost predicate TimedOut(s: State, t: nat) {
    t < |s.st| && t < |s.ret| && s.st[t] == Ready && s.ret[t] == Some(Timeout)
  }

  lemma AwaitsTick(s: State, t: nat, j: JobState, i: nat, left: nat)
    requires Steady(s) && !Trips(s, DoTick) && !Misfired(s, t) && Awaits(s, t, j, i, left)
    ensures var q := Step(s, DoTick);
            if left > 1 then Awaits(q, t, j, i, left - 1) else TimedOut(q, t) && !q.delays[i].active
  {
    hide Step, Misfired, Trips;
    TickStepCarries(s);
    if left == 1 {
      assert Due(s.delays[i], t);
    } else if DueTo(s.delays, t, s.size) {
      var k :| 0 <= k < s.size && Due(s.delays[k], t);
      CountTwice(s.delays, i, k, t);
    }
  }

  lemma AwaitsNext(s: State, a: Action, q: State, t: nat, j: JobState, i: nat, left: nat)
    requires Steady(s) && Next(s, a, q) && !Trips(s, a) && Awaits(s, t, j, i, left) && !Interrupts(s, a, t)
    ensures !a.DoTick? ==> Awaits(q, t, j, i, left)
    ensures a.DoTick? && left > 1 ==> Awaits(q, t, j, i, left - 1)
    ensures a.DoTick? && left <= 1 ==> TimedOut(q, t)
  {
    hide Step, Awaits, TimedOut, Trips;
    if a.DoTick? {
      AwaitsTick(s, t, j, i, left);
    } else {
      AwaitsMove(s, a, t, j, i, left);
    }
  }

  /** No event interrupts task `t` at steps `from` to `k`. */
  ghost predicate Uninterrupted(trace: seq<State>, acts: seq<Action>, t: nat, from: nat, k: nat)
    requires IsRun(trace, acts) && k <= |acts|
  {
    forall n :: from <= n < k ==> Next(trace[n], acts[n], trace[n + 1]) && !Interrupts(trace[n], acts[n], t)
  }

  lemma UninterruptedLast(trace: seq<State>, acts: seq<Action>, t: nat, from: nat, k: nat)
    requires IsRun(trace, acts) && from < k <= |acts| && Uninterrupted(trace, acts, t, from, k)
    ensures Uninterrupted(trace, acts, t, from, k - 1) && |trace| == |acts| + 1
    ensures Next(trace[k - 1], acts[k - 1], trace[k]) && !Interrupts(trace[k - 1], acts[k - 1], t)
  {
    hide Interrupts, Next;
    assert Next(trace[k - 1], acts[k - 1], trace[k - 1 + 1]);
  }

  /** Where a wait of `left` ticks stands after `n` more. */
  ghost predicate Elapsed(s: State, t: nat, j: JobState, i: nat, left: nat, n: nat, ticked: bool) {
    && (n < left ==> Awaits(s, t, j, i, left - n))
    && (n == left && ticked ==> TimedOut(s, t))
  }

  lemma ElapsedNext(s: State, a: Action, q: State, t: nat, j: JobState, i: nat, left: nat, n: nat, ticked: bool)
    requires Steady(s) && Next(s, a, q) && !Trips(s, a) && !Interrupts(s, a, t) && Elapsed(s, t, j, i, left, n, ticked)
    requires n + (if a.DoTick? then 1 else 0) <= left
    ensures Elapsed(q, t, j, i, left, n + (if a.DoTick? then 1 else 0), a.DoTick?)
  {
    hide Inv, Clear, Next, Interrupts, Awaits, TimedOut, Trips;
    if n < left {
      AwaitsNext(s, a, q, t, j, i, left - n);
    }
  }

  /** A delayed job is ended by its timeout at exactly the tick it is due, and not before,
      whatever else happens, unless an event ends it first. */
  lemma {:induction false} ExactTimeout(trace: seq<State>, acts: seq<Action>, t: nat, j: JobState, i: nat, left: nat,
                                        from: nat, k: nat)
    requires IsRun(trace, acts) && Steady(trace[0]) && from <= k <= |acts| && !trace[k].panicked
    requires Awaits(trace[from], t, j, i, left)
    requires Uninterrupted(trace, acts, t, from, k) && TicksIn(acts, k) - TicksIn(acts, from) <= left
    ensures TicksIn(acts, from) <= TicksIn(acts, k)
    ensures Elapsed(trace[k], t, j, i, left, TicksIn(acts, k) - TicksIn(acts, from), from < k && acts[k - 1].DoTick?)
    decreases k
  {
    hide IsRun, Next, Inv, Clear, Awaits, Interrupts, Uninterrupted, Trips;
    RunShape(trace, acts);
    if k > from {
      hide Elapsed;
      RunStep(trace, acts, k - 1);
      UninterruptedLast(trace, acts, t, from, k);
      ExactTimeout(trace, acts, t, j, i, left, from, k - 1);
      ElapsedNext(trace[k - 1], acts[k - 1], trace[k], t, j, i, left, TicksIn(acts, k - 1) - TicksIn(acts, from),
                  from < k - 1 && acts[k - 2].DoTick?);
    }
  }

  // ---- Sleeping ------------------------------------------------------------------------------------------

  ghost function SleepState(mode: nat): JobState {
    if mode == SLEEP_MODE_DEEP then SleepingDeep else Sleeping
  }

  lemma SleepGate(s: State, ms: nat, mode: nat)
    requires WF(s) && DelayHasRoom(s) && mode <= SLEEP_MODE_DEEP
    ensures var q := Sleep(s, ms, mode);
            && q.delays == s.delays[FirstFree(s.delays) := Slot(true, Current(s), DelayData(ms, ms))]
            && q.st == s.st[Current(s) := SleepState(mode)]
  {
  }

  lemma StepFrame(s: State, a: Action)
    requires Steady(s) && EnvOk(s, a) && Legal(s, a) && !Trips(s, a)
    ensures var q, g := Step(s, a), Gate(s, a); q.st == g.st && q.delays == g.delays && q.alarms == g.alarms
  {
    hide Inv, Legal, EnvOk, Gate, Step, Trips;
    InvShape(s);
    StepKeeps(s, a);
    HandOffFrame(Gate(s, a));
  }

  lemma SleepRoom(s: State)
    requires Inv(s)
    ensures DelayHasRoom(s) && FirstFree(s.delays) < |s.delays|
  {
    DelayRoom(s);
  }

  lemma LegalSleep(s: State, ms: nat, mode: nat)
    requires WF(s)
    ensures Legal(s, DoSleep(ms, mode))
  {
  }

  /** A sleep request starts a wait of its duration. */
  lemma SleepBegins(s: State, ms: nat, mode: nat)
    requires Steady(s) && s.sched.current.Some? && mode <= SLEEP_MODE_DEEP && !Trips(s, DoSleep(ms, mode))
    ensures Awaits(Step(s, DoSleep(ms, mode)), Current(s), SleepState(mode), FirstFree(s.delays), Lasts(ms))
  {
    hide Inv, Step, Sleep, DelayHasRoom, Legal, Trips;
    InvShape(s);
    SleepRoom(s);
    SleepGate(s, ms, mode);
    LegalSleep(s, ms, mode);
    StepFrame(s, DoSleep(ms, mode));
  }

  /** Nothing interrupts a deep sleep before its timeout. */
  lemma {:induction false} DeepUninterrupted(trace: seq<State>, acts: seq<Action>, t: nat, i: nat, left: nat,
                                             from: nat, k: nat)
    requires IsRun(trace, acts) && Steady(trace[0]) && from <= k <= |acts| && !trace[k].panicked
    requires Awaits(trace[from], t, SleepingDeep, i, left)
    requires var n := TicksIn(acts, k) - TicksIn(acts, from); n < left || (n == left && from < k && acts[k - 1].DoTick?)
    ensures Uninterrupted(trace, acts, t, from, k)
    decreases k
  {
    hide IsRun, Next, Inv, Clear, Interrupts, Trips;
    RunShape(trace, acts);
    if k > from {
      RunStep(trace, acts, k - 1);
      DeepUninterrupted(trace, acts, t, i, left, from, k - 1);
      ExactTimeout(trace, acts, t, SleepingDeep, i, left, from, k - 1);
      DeepUndisturbedNext(trace[k - 1], acts[k - 1], trace[k], t);
    }
  }

  lemma DeepUndisturbedNext(s: State, a: Action, q: State, t: nat)
    requires Inv(s) && Next(s, a, q) && t < |s.st| && s.st[t] == SleepingDeep
    ensures !Interrupts(s, a, t)
  {
    DeepUndisturbed(s, a, t);
  }

  /** Step `from` of the run is a sleep request of task `t`. */
  ghost predicate SleepsAt(trace: seq<State>, acts: seq<Action>, from: nat, t: nat, ms: nat, mode: nat)
    requires IsRun(trace, acts) && from < |acts|
  {
    && acts[from] == DoSleep(ms, mode) && mode <= SLEEP_MODE_DEEP
    && Next(trace[from], acts[from], trace[from + 1]) && t == Current(trace[from])
  }

  lemma SleepStarts(trace: seq<State>, acts: seq<Action>, from: nat, t: nat, ms: nat, mode: nat) returns (i: nat)
    requires IsRun(trace, acts) && Steady(trace[0]) && from < |acts| && SleepsAt(trace, acts, from, t, ms, mode)
    requires !trace[from + 1].panicked
    ensures Awaits(trace[from + 1], t, SleepState(mode), i, Lasts(ms))
  {
    hide Awaits, Step, Inv, Clear, Trips;
    RunStep(trace, acts, from);
    i := FirstFree(trace[from].delays);
    SleepBegins(trace[from], ms, mode);
  }

  /** A task that asks for a deep sleep of `ms` milliseconds sleeps until exactly the tick of
      number `max(1, ms)` after the request, and is then ready with TIMEOUT. */
  lemma DeepSleepExact(trace: seq<State>, acts: seq<Action>, from: nat, k: nat, t: nat, ms: nat)
    requires IsRun(trace, acts) && Steady(trace[0]) && from < k <= |acts| && !trace[k].panicked
    requires SleepsAt(trace, acts, from, t, ms, SLEEP_MODE_DEEP)
    ensures var n := TicksIn(acts, k) - TicksIn(acts, from + 1);
            && (n < Lasts(ms) ==> t < |trace[k].st| && trace[k].st[t] == SleepingDeep)
            && (n == Lasts(ms) && from + 1 < k && acts[k - 1].DoTick? ==> TimedOut(trace[k], t))
  {
    hide IsRun, Inv, Clear, SleepsAt, TimedOut, TicksIn, Uninterrupted, Lasts;
    RunShape(trace, acts);
    EarlierCalm(trace, acts, from + 1, k);
    var i := SleepStarts(trace, acts, from, t, ms, SLEEP_MODE_DEEP);
    var n := TicksIn(acts, k) - TicksIn(acts, from + 1);
    if n < Lasts(ms) || (n == Lasts(ms) && from + 1 < k && acts[k - 1].DoTick?) {
      DeepUninterrupted(trace, acts, t, i, Lasts(ms), from + 1, k);
      ExactTimeout(trace, acts, t, SleepingDeep, i, Lasts(ms), from + 1, k);
    }
  }

  /** A shallow sleep that no event ends lasts exactly as long. */
  lemma ShallowSleepExact(trace: seq<State>, acts: seq<Action>, from: nat, k: nat, t: nat, ms: nat)
    requires IsRun(trace, acts) && Steady(trace[0]) && from < k <= |acts| && !trace[k].panicked
    requires SleepsAt(trace, acts, from, t, ms, 0)
    requires Uninterrupted(trace, acts, t, from + 1, k)
    ensures var n := TicksIn(acts, k) - TicksIn(acts, from + 1);
            && (n < Lasts(ms) ==> t < |trace[k].st| && trace[k].st[t] == Sleeping)
            && (n == Lasts(ms) && from + 1 < k && acts[k - 1].DoTick? ==> TimedOut(trace[k], t))
  {
    hide IsRun, Inv, Clear, SleepsAt, TimedOut, TicksIn, Uninterrupted, Lasts;
    RunShape(trace, acts);
    EarlierCalm(trace, acts, from + 1, k);
    var i := SleepStarts(trace, acts, from, t, ms, 0);
    if TicksIn(acts, k) - TicksIn(acts, from + 1) <= Lasts(ms) {
      ExactTimeout(trace, acts, t, Sleeping, i, Lasts(ms), from + 1, k);
    }
  }

  // ---- Waiting for events ----------------------------------------------------------------------------------

  lemma WaitGate(s: State, mask: bv8, timeout: int, devh: nat)
    requires WF(s) && NothingToTake(s, mask) && timeout != -1 && (timeout > 0 ==> DelayHasRoom(s))
    ensures var q := WaitEvent(s, mask, timeout, devh);
            && q.delays == (if timeout <= 0 then s.delays
                            else s.delays[FirstFree(s.delays) := Slot(true, Current(s), DelayData(timeout, timeout))])
            && q.st == s.st[Current(s) := WaitForEvent]
  {
  }

  lemma LegalWait(s: State, mask: bv8, timeout: int, devh: nat)
    requires WF(s)
    ensures Legal(s, DoWaitEvent(mask, timeout, devh))
  {
  }

  /** Task `t` waits for events and no timeout will end the wait. */
  ghost predicate Rests(s: State, t: nat) {
    t < |s.st| && s.st[t] == WaitForEvent && NoCell(s.delays, t)
  }

  lemma RunnerNoCell(s: State)
    requires Steady(s)
    ensures NoCell(s.delays, Current(s))
  {
    RunnerReady(s);
    NoDelayWhenReady(s.delays, s.st, s.ret, Current(s));
  }

  /** A wait with nothing to deliver starts a wait of its duration, or an endless one. */
  lemma WaitBegins(s: State, mask: bv8, timeout: int, devh: nat)
    requires Steady(s) && s.sched.current.Some? && timeout != -1 && !Trips(s, DoWaitEvent(mask, timeout, devh))
    requires NothingPending(s, Current(s), mask)
    ensures var q := Step(s, DoWaitEvent(mask, timeout, devh));
            if timeout > 0 then Awaits(q, Current(s), WaitForEvent, FirstFree(s.delays), timeout)
            else Rests(q, Current(s))
  {
    hide Inv, Step, WaitEvent, DelayHasRoom, Legal, Trips, NothingToTake, NothingPending, NoCell;
    InvShape(s);
    RunnerNoCell(s);
    SleepRoom(s);
    NothingFound(s, mask);
    WaitGate(s, mask, timeout, devh);
    LegalWait(s, mask, timeout, devh);
    StepFrame(s, DoWaitEvent(mask, timeout, devh));
  }

  /** Step `from` of the run is a wait of task `t` that finds nothing to deliver. */
  ghost predicate WaitsAt(trace: seq<State>, acts: seq<Action>, from: nat, t: nat, timeout: int)
    requires IsRun(trace, acts) && from < |acts|
  {
    && acts[from].DoWaitEvent? && acts[from].timeout == timeout != -1
    && Next(trace[from], acts[from], trace[from + 1]) && t == Current(trace[from])
    && NothingPending(trace[from], t, acts[from].mask)
  }

  lemma WaitStarts(trace: seq<State>, acts: seq<Action>, from: nat, t: nat, timeout: int) returns (i: nat)
    requires IsRun(trace, acts) && Steady(trace[0]) && from < |acts| && WaitsAt(trace, acts, from, t, timeout)
    requires !trace[from + 1].panicked
    ensures if timeout > 0 then Awaits(trace[from + 1], t, WaitForEvent, i, timeout) else Rests(trace[from + 1], t)
  {
    hide Awaits, Rests, Step, Inv, Clear, Trips, NothingPending;
    RunStep(trace, acts, from);
    i := FirstFree(trace[from].delays);
    WaitBegins(trace[from], acts[from].mask, timeout, acts[from].devh);
  }

  /** A wait with a timeout of `ms` milliseconds that no event ends is ended by exactly the tick of
      that number, with TIMEOUT. */
  lemma TimedWaitExact(trace: seq<State>, acts: seq<Action>, from: nat, k: nat, t: nat, ms: nat)
    requires IsRun(trace, acts) && Steady(trace[0]) && from < k <= |acts| && !trace[k].panicked
    requires ms > 0 && WaitsAt(trace, acts, from, t, ms) && Uninterrupted(trace, acts, t, from + 1, k)
    ensures var n := TicksIn(acts, k) - TicksIn(acts, from + 1);
            && (n < ms ==> t < |trace[k].st| && trace[k].st[t] == WaitForEvent)
            && (n == ms && from + 1 < k && acts[k - 1].DoTick? ==> TimedOut(trace[k], t))
  {
    hide IsRun, Inv, Clear, WaitsAt, TimedOut, TicksIn, Uninterrupted;
    RunShape(trace, acts);
    EarlierCalm(trace, acts, from + 1, k);
    var i := WaitStarts(trace, acts, from, t, ms);
    if TicksIn(acts, k) - TicksIn(acts, from + 1) <= ms {
      ExactTimeout(trace, acts, t, WaitForEvent, i, ms, from + 1, k);
    }
  }

  ghost predicate NoCell(delays: seq<DelayCell>, t: nat) {
    forall i :: 0 <= i < |delays| ==> !IsFor(delays[i], t)
  }

  lemma NoCellCarried(before: seq<DelayCell>, after: seq<DelayCell>, woken: Option<nat>, asker: Option<nat>, t: nat)
    requires NoCell(before, t) && DelaysCarried(before, after, woken, asker) && asker != Some(t)
    ensures NoCell(after, t)
  {
  }

  lemma NoCellAged(before: seq<DelayCell>, after: seq<DelayCell>, t: nat)
    requires NoCell(before, t) && AgedTo(before, after, |before|)
    ensures NoCell(after, t) && !DueTo(before, t, |before|)
  {
  }

  lemma RestsTick(s: State, t: nat)
    requires Steady(s) && !Trips(s, DoTick) && Rests(s, t) && !Misfired(s, t)
    ensures Rests(Step(s, DoTick), t)
  {
    hide Inv, Step, Trips, Misfired, NoCell, AgedTo, DueTo;
    InvShape(s);
    TickStepCarries(s);
    NoCellAged(s.delays, Step(s, DoTick).delays, t);
  }

  lemma RestsMove(s: State, a: Action, t: nat)
    requires Steady(s) && EnvOk(s, a) && Legal(s, a) && !Trips(s, a) && !a.DoTick? && Rests(s, t)
    requires Rouses(s, a) != Some(t)
    ensures Rests(Step(s, a), t)
  {
    hide Inv, Step, Trips, EnvOk, Legal, Rouses, Elects, Enqueue, SlotsAfter, AreasCarried, AlarmsCarried, NewState;
    hide NoCell, DelaysCarried;
    InvShape(s);
    RunnerReady(s);
    MovedStep(s, a);
    CarriedStep(s, a);
    NoCellCarried(s.delays, Step(s, a).delays, Rouses(s, a), Asks(s, a), t);
  }

  lemma RestsNext(s: State, a: Action, q: State, t: nat)
    requires Steady(s) && Next(s, a, q) && !Trips(s, a) && Rests(s, t) && !Interrupts(s, a, t)
    ensures Rests(q, t)
  {
    hide Inv, Clear, Step, Trips, EnvOk, Legal, Misfired, Rouses, Rests;
    if a.DoTick? {
      RestsTick(s, t);
    } else {
      RestsMove(s, a, t);
    }
  }

  /** A wait without timeout lasts, whatever the ticks, until an event ends it. */
  lemma {:induction false} EndlessWait(trace: seq<State>, acts: seq<Action>, from: nat, k: nat, t: nat, timeout: int)
    requires IsRun(trace, acts) && Steady(trace[0]) && from < k <= |acts| && !trace[k].panicked
    requires timeout <= 0 && WaitsAt(trace, acts, from, t, timeout) && Uninterrupted(trace, acts, t, from + 1, k)
    ensures Rests(trace[k], t)
  {
    hide IsRun, Inv, Clear, WaitsAt, Uninterrupted, Rests, Next, Interrupts, Trips;
    RunShape(trace, acts);
    if k == from + 1 {
      var _ := WaitStarts(trace, acts, from, t, timeout);
    } else {
      RunStep(trace, acts, k - 1);
      UninterruptedLast(trace, acts, t, from + 1, k);
      EndlessWait(trace, acts, from, k - 1, t, timeout);
      RestsNext(trace[k - 1], acts[k - 1], trace[k], t);
    }
  }

  /** An event that ends a shallow sleep makes the task ready at that step. */
  lemma InterruptWakes(s: State, a: Action, t: nat, i: nat, left: nat)
    requires Steady(s) && EnvOk(s, a) && Legal(s, a) && !Trips(s, a)
    requires Awaits(s, t, Sleeping, i, left) && Interrupts(s, a, t)
    ensures t < |Step(s, a).st| && Step(s, a).st[t] == Ready
  {
    MisfiredWaits(s, t);
    hide Step, Trips;
    AwaitsMove(s, a, t, Sleeping, i, left);
  }

  // ---- Alarms ----------------------------------------------------------------------------------------------

  /** Alarm cell `i` is a periodic alarm of `ms` milliseconds that fires in `left` ticks. */
  ghost predicate Armed(s: State, i: nat, h: nat, ms: nat, left: nat) {
    && i < |s.alarms| && IsFor(s.alarms[i], h) && s.alarms[i].data.periodic && s.alarms[i].data.wait == ms
    && Lasts(s.alarms[i].data.remaining) == left
  }

  ghost predicate GoesOff(s: State, a: Action, i: nat) {
    a.DoTick? && i < |s.alarms| && Fires(s.alarms[i])
  }

  /** A request for a periodic alarm arms a cell, if one is free. */
  lemma AlarmBegins(s: State, ms: nat)
    requires Steady(s) && s.sched.current.Some? && AlarmHasRoom(s)
    ensures Armed(Step(s, DoSetAlarm(ms, true)), FirstFree(s.alarms), Current(s), ms, Lasts(ms))
  {
    var a := DoSetAlarm(ms, true);
    hide Step;
    assert Resumes(s, a) == Current(s);
    StepFrame(s, a);
  }

  lemma ArmedMove(s: State, a: Action, i: nat, h: nat, ms: nat, left: nat)
    requires Steady(s) && EnvOk(s, a) && Legal(s, a) && !Trips(s, a) && !a.DoTick? && Armed(s, i, h, ms, left)
    requires StoppedCell(s, a) != Some(i)
    ensures Armed(Step(s, a), i, h, ms, left)
  {
    hide Step, Inv, Legal, Trips;
    InvShape(s);
    CarriedStep(s, a);
  }

  /** The alarm rings on the tick it is due, leaving a signal pending, and starts over. */
  lemma ArmedTick(s: State, i: nat, h: nat, ms: nat, left: nat)
    requires Steady(s) && !Trips(s, DoTick) && Armed(s, i, h, ms, left)
    ensures GoesOff(s, DoTick, i) <==> left == 1
    ensures Armed(Step(s, DoTick), i, h, ms, if left == 1 then Lasts(ms) else left - 1)
    ensures left == 1 ==> var q := Step(s, DoTick); h < |q.sigs| && h < |q.sigs[h]| && q.sigs[h][h] != 0
  {
    hide Step, Trips;
    TickStepCarries(s);
  }

  lemma ArmedNext(s: State, a: Action, q: State, i: nat, h: nat, ms: nat, left: nat)
    requires Steady(s) && Next(s, a, q) && !Trips(s, a) && Armed(s, i, h, ms, left) && StoppedCell(s, a) != Some(i)
    ensures !a.DoTick? ==> Armed(q, i, h, ms, left)
    ensures a.DoTick? ==> Armed(q, i, h, ms, if left == 1 then Lasts(ms) else left - 1)
    ensures GoesOff(s, a, i) <==> a.DoTick? && left == 1
  {
    hide Step, Armed, Trips;
    if a.DoTick? {
      ArmedTick(s, i, h, ms, left);
    } else {
      ArmedMove(s, a, i, h, ms, left);
    }
  }

  ghost predicate Unstopped(trace: seq<State>, acts: seq<Action>, i: nat, k: nat)
    requires IsRun(trace, acts) && k <= |acts|
  {
    forall n :: 0 <= n < k ==> Next(trace[n], acts[n], trace[n + 1]) && StoppedCell(trace[n], acts[n]) != Some(i)
  }

  lemma UnstoppedLast(trace: seq<State>, acts: seq<Action>, i: nat, k: nat)
    requires IsRun(trace, acts) && 0 < k <= |acts| && Unstopped(trace, acts, i, k)
    ensures Unstopped(trace, acts, i, k - 1) && |trace| == |acts| + 1
    ensures Next(trace[k - 1], acts[k - 1], trace[k]) && StoppedCell(trace[k - 1], acts[k - 1]) != Some(i)
  {
    hide StoppedCell;
    assert Next(trace[k - 1], acts[k - 1], trace[k - 1 + 1]);
  }

  /** How many of the first `k` steps make alarm cell `i` ring. */
  ghost function RingsIn(trace: seq<State>, acts: seq<Action>, i: nat, k: nat): nat
    requires k <= |acts| <= |trace|
  {
    if k == 0 then 0 else RingsIn(trace, acts, i, k - 1) + if GoesOff(trace[k - 1], acts[k - 1], i) then 1 else 0
  }

  /** `rings` whole periods and the part of the next one that has gone by. */
  ghost predicate Kept(period: nat, left: nat, rings: nat, ticks: nat) {
    1 <= left <= period && ticks == period * rings + (period - left)
  }

  lemma KeptNext(period: nat, left: nat, rings: nat, ticks: nat)
    requires Kept(period, left, rings, ticks)
    ensures if left == 1 then Kept(period, period, rings + 1, ticks + 1) else Kept(period, left - 1, rings, ticks + 1)
  {
    assert period * (rings + 1) == period * rings + period;
  }

  lemma KeptRings(period: nat, left: nat, rings: nat, ticks: nat)
    requires Kept(period, left, rings, ticks)
    ensures rings == ticks / period
  {
    var over := period - left;
    assert ticks == period * rings + over && 0 <= over < period;
    DivUnique(ticks, period, rings, over);
  }

  lemma DivUnique(n: nat, d: nat, q: nat, r: nat)
    requires n == d * q + r && r < d
    ensures n / d == q
  {
    var p, m := n / d, n % d;
    if p < q {
      MulGap(d, p, q);
    } else if q < p {
      MulGap(d, q, p);
    }
  }

  lemma MulGap(d: nat, p: nat, q: nat)
    requires p < q
    ensures d * q >= d * p + d
  {
    assert d * q == d * (q - 1) + d;
    if p < q - 1 {
      MulGap(d, p, q - 1);
    }
  }

  lemma {:induction false} ArmedRun(trace: seq<State>, acts: seq<Action>, i: nat, h: nat, ms: nat, k: nat)
    returns (left: nat)
    requires IsRun(trace, acts) && k <= |acts| && !trace[k].panicked && Steady(trace[0])
    requires Armed(trace[0], i, h, ms, Lasts(ms))
    requires Unstopped(trace, acts, i, k)
    ensures Armed(trace[k], i, h, ms, left) && Kept(Lasts(ms), left, RingsIn(trace, acts, i, k), TicksIn(acts, k))
  {
    hide IsRun, Next, Inv, Clear, Armed, Kept, Unstopped, GoesOff, StoppedCell, Trips;
    RunShape(trace, acts);
    left := Lasts(ms);
    if k == 0 {
      KeptNone(ms);
    } else {
      RunStep(trace, acts, k - 1);
      UnstoppedLast(trace, acts, i, k);
      left := ArmedRun(trace, acts, i, h, ms, k - 1);
      ArmedNext(trace[k - 1], acts[k - 1], trace[k], i, h, ms, left);
      KeptNext(Lasts(ms), left, RingsIn(trace, acts, i, k - 1), TicksIn(acts, k - 1));
      if acts[k - 1].DoTick? {
        left := if left == 1 then Lasts(ms) else left - 1;
      }
    }
  }

  lemma KeptNone(ms: nat)
    ensures Kept(Lasts(ms), Lasts(ms), 0, 0)
  {
  }

  /** A periodic alarm of `ms` milliseconds that nobody stops rings exactly once in every
      `max(1, ms)` ticks. */
  lemma PeriodicAlarm(trace: seq<State>, acts: seq<Action>, i: nat, h: nat, ms: nat, k: nat)
    requires IsRun(trace, acts) && k <= |acts| && !trace[k].panicked && Steady(trace[0])
    requires Armed(trace[0], i, h, ms, Lasts(ms)) && Unstopped(trace, acts, i, k)
    ensures RingsIn(trace, acts, i, k) == TicksIn(acts, k) / Lasts(ms)
  {
    var left := ArmedRun(trace, acts, i, h, ms, k);
    hide Kept;
    KeptRings(Lasts(ms), left, RingsIn(trace, acts, i, k), TicksIn(acts, k));
  }

  // ---- One-shot alarms -------------------------------------------------------------------------------------

  /** Alarm cell `i` is an alarm of task `h` that rings once, in `left` ticks. */
  ghost predicate Single(s: State, i: nat, h: nat, left: nat) {
    && i < |s.alarms| && IsFor(s.alarms[i], h) && !s.alarms[i].data.periodic
    && Lasts(s.alarms[i].data.remaining) == left
  }

  ghost predicate Unused(s: State, i: nat) {
    i < |s.alarms| && !s.alarms[i].active
  }

  lemma SingleBegins(s: State, ms: nat)
    requires Steady(s) && s.sched.current.Some? && AlarmHasRoom(s)
    ensures Single(Step(s, DoSetAlarm(ms, false)), FirstFree(s.alarms), Current(s), Lasts(ms))
  {
    var a := DoSetAlarm(ms, false);
    hide Step;
    assert Resumes(s, a) == Current(s);
    StepFrame(s, a);
  }

  lemma SingleMove(s: State, a: Action, i: nat, h: nat, left: nat)
    requires Steady(s) && EnvOk(s, a) && Legal(s, a) && !Trips(s, a) && !a.DoTick?
    requires StoppedCell(s, a) != Some(i) && TakenCell(s, a) != Some(i)
    ensures Single(s, i, h, left) ==> Single(Step(s, a), i, h, left)
    ensures Unused(s, i) ==> Unused(Step(s, a), i)
  {
    hide Step, Inv, Legal, Trips;
    InvShape(s);
    CarriedStep(s, a);
  }

  /** The alarm rings on the tick it is due, leaves its signal, and its cell is free again. */
  lemma SingleTick(s: State, i: nat, h: nat, left: nat)
    requires Steady(s) && !Trips(s, DoTick) && Single(s, i, h, left)
    ensures GoesOff(s, DoTick, i) <==> left == 1
    ensures left > 1 ==> Single(Step(s, DoTick), i, h, left - 1)
    ensures left == 1 ==> Unused(Step(s, DoTick), i)
  {
    hide Step, Trips;
    TickStepCarries(s);
  }

  lemma UnusedTick(s: State, i: nat)
    requires Steady(s) && !Trips(s, DoTick) && Unused(s, i)
    ensures !GoesOff(s, DoTick, i) && Unused(Step(s, DoTick), i)
  {
    hide Step, Trips;
    TickStepCarries(s);
  }

  /** Nobody stops alarm cell `i` and no request takes it, at steps `from` to `k`. */
  ghost predicate Undisturbed(trace: seq<State>, acts: seq<Action>, i: nat, from: nat, k: nat)
    requires IsRun(trace, acts) && k <= |acts|
  {
    forall n :: from <= n < k ==>
      && Next(trace[n], acts[n], trace[n + 1])
      && StoppedCell(trace[n], acts[n]) != Some(i) && TakenCell(trace[n], acts[n]) != Some(i)
  }

  lemma UndisturbedLast(trace: seq<State>, acts: seq<Action>, i: nat, from: nat, k: nat)
    requires IsRun(trace, acts) && from < k <= |acts| && Undisturbed(trace, acts, i, from, k)
    ensures Undisturbed(trace, acts, i, from, k - 1) && |trace| == |acts| + 1
    ensures Next(trace[k - 1], acts[k - 1], trace[k])
    ensures StoppedCell(trace[k - 1], acts[k - 1]) != Some(i) && TakenCell(trace[k - 1], acts[k - 1]) != Some(i)
  {
    hide StoppedCell, TakenCell;
    assert Next(trace[k - 1], acts[k - 1], trace[k - 1 + 1]);
  }

  /** An alarm of `total` ticks after `n` of them and `rings` rings. */
  ghost predicate RangOnce(s: State, i: nat, h: nat, total: nat, n: nat, rings: nat) {
    if n < total then Single(s, i, h, total - n) && rings == 0 else Unused(s, i) && rings == 1
  }

  lemma RangOnceNext(s: State, a: Action, q: State, i: nat, h: nat, total: nat, n: nat, rings: nat)
    requires Steady(s) && Next(s, a, q) && !Trips(s, a) && RangOnce(s, i, h, total, n, rings)
    requires StoppedCell(s, a) != Some(i) && TakenCell(s, a) != Some(i)
    ensures RangOnce(q, i, h, total, n + (if a.DoTick? then 1 else 0), rings + if GoesOff(s, a, i) then 1 else 0)
  {
    hide Inv, Clear, Step, Trips, Single, Unused, StoppedCell, TakenCell, EnvOk, Legal;
    if !a.DoTick? {
      SingleMove(s, a, i, h, if n < total then total - n else 0);
    } else if n < total {
      SingleTick(s, i, h, total - n);
    } else {
      UnusedTick(s, i);
    }
  }

  lemma {:induction false} SingleRun(trace: seq<State>, acts: seq<Action>, i: nat, h: nat, total: nat, from: nat,
                                     k: nat)
    requires IsRun(trace, acts) && Steady(trace[0]) && from <= k <= |acts| && !trace[k].panicked
    requires total > 0 && Single(trace[from], i, h, total) && Undisturbed(trace, acts, i, from, k)
    ensures |trace| == |acts| + 1 && TicksIn(acts, from) <= TicksIn(acts, k)
    ensures RingsIn(trace, acts, i, from) <= RingsIn(trace, acts, i, k)
    ensures RangOnce(trace[k], i, h, total, TicksIn(acts, k) - TicksIn(acts, from),
                     RingsIn(trace, acts, i, k) - RingsIn(trace, acts, i, from))
    decreases k
  {
    hide IsRun, Next, Inv, Clear, Single, Undisturbed, GoesOff, StoppedCell, TakenCell, Trips, RangOnce;
    RunShape(trace, acts);
    if k == from {
      SingleNone(trace[k], i, h, total);
    } else {
      RunStep(trace, acts, k - 1);
      UndisturbedLast(trace, acts, i, from, k);
      SingleRun(trace, acts, i, h, total, from, k - 1);
      RangOnceNext(trace[k - 1], acts[k - 1], trace[k], i, h, total, TicksIn(acts, k - 1) - TicksIn(acts, from),
                   RingsIn(trace, acts, i, k - 1) - RingsIn(trace, acts, i, from));
    }
  }

  lemma SingleNone(s: State, i: nat, h: nat, total: nat)
    requires total > 0 && Single(s, i, h, total)
    ensures RangOnce(s, i, h, total, 0, 0)
  {
  }

  /** A one-shot alarm of `ms` milliseconds that nobody stops rings exactly once, at tick
      `max(1, ms)` after the request, and its cell is free from then on until a request takes it. */
  lemma OneShotAlarm(trace: seq<State>, acts: seq<Action>, from: nat, k: nat, ms: nat)
    requires IsRun(trace, acts) && Steady(trace[0]) && from < k <= |acts| && !trace[k].panicked
    requires acts[from] == DoSetAlarm(ms, false) && AlarmHasRoom(trace[from]) && trace[from].sched.current.Some?
    requires Undisturbed(trace, acts, FirstFree(trace[from].alarms), from + 1, k)
    ensures |trace| == |acts| + 1
    ensures var i, n := FirstFree(trace[from].alarms), TicksIn(acts, k) - TicksIn(acts, from + 1);
            && RingsIn(trace, acts, i, k) - RingsIn(trace, acts, i, from + 1) == (if n < Lasts(ms) then 0 else 1)
            && i < |trace[k].alarms| && (trace[k].alarms[i].active <==> n < Lasts(ms))
  {
    hide IsRun, Inv, Clear, Step, Trips, Undisturbed, AlarmHasRoom, RingsIn, TicksIn, FirstFree;
    RunShape(trace, acts);
    EarlierCalm(trace, acts, from + 1, k);
    RunStep(trace, acts, from);
    SingleBegins(trace[from], ms);
    InvShape(trace[from]);
    SingleRun(trace, acts, FirstFree(trace[from].alarms), Current(trace[from]), Lasts(ms), from + 1, k);
  }

  /** An alarm that rings leaves the alarm signal in its task's own slot, unless a signal is there. */
  lemma RingLeavesSignal(s: State, i: nat)
    requires Steady(s) && !Trips(s, DoTick) && GoesOff(s, DoTick, i)
    ensures var h, q := s.alarms[i].handler, Step(s, DoTick);
            && h < |s.sigs| && h < |s.sigs[h]| && h < |q.sigs| && h < |q.sigs[h]|
            && q.sigs[h][h] == if s.sigs[h][h] == 0 then SIGNAL_ALARM else s.sigs[h][h]
  {
    hide Step, Trips;
    TickStepCarries(s);
  }
}
