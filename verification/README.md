# Sentry kernel: verified model

This project models the core of the Sentry microkernel and proves what its design promises.
Sentry runs a fixed set of tasks on a microcontroller. Tasks are scheduled by a round-robin
multi-queue scheduler, exchange synchronous messages (IPC), signals, interrupts and DMA events
through per-task mailboxes, sleep and set alarms, and map devices and shared memories into a
small table of memory regions.

## How it is organised

- `IpcGraph`: the graph of pending messages, and the stack-based deadlock detector.
- `Slots`, `Rrmq`, `Rings`, `Exchange`: cell tables, the scheduler, event rings, the exchange area.
- `KernelSpec`: the kernel state and the effect of every gate, interrupt and tick on it.
- `Invariants`, `GateProofs`, `EventProofs`, `TickProofs`, `HeldProofs`, `Protocol`: the kernel
  invariant, kept by every legal step or left by a panic, and over every run from boot.
- `Theorems`, `Moves`, `BoundedWaiting`, `Quantum`, `Priorities`, `Carriage`, `Columns`, `Timing`,
  `Integrity`, `Delivery`, `Arrivals`, `Answers`: what follows for whole runs: no deadlock, bounded
  waiting, exact quanta, priority, exact timing, messages, signals, interrupts and DMA events that
  arrive as they were sent, and what every request is answered.
- `Witnesses`: runs from boot that reach the situations the theorems set apart.
- `Machine`: the kernel as it runs, a class whose methods update its tables in place. Each method
  is proved against `KernelSpec` on every well-formed state.
- `Layout`, `LayoutProofs`, `Credentials`, `MemoryMachine`: the memory layout tables, their agreement
  with the "mapped" flags, regions and rights over runs, and the gates as they run.
- `Crc`, `LogPrinter`, `CycleCounter`, `Memcpy`, `UserLibrary`: the CRC, the log printer, the cycle
  counter, the memory copy, the user side of the exchange area.

The number of tasks is symbolic throughout.

## Reading the theorems

A state is between two kernel entries. A step (`KernelSpec.Step`) is one kernel entry with its exit,
or one write of a task to its own exchange area. `Invariants.Inv` collects what steps keep: the
jobsets hold exactly the ready jobs, slots are in use exactly by blocked senders, the message graph
is acyclic, a waiting task has nothing pending that it asked for, every task has at most one delayed
job, and parked tasks have NON_SENSE as their return value.

An alarm that rings for a task that waits for events, with its alarm slot free and no timeout due in
the same tick, makes the task ready without a return value. Such a task is *held* (`Invariants.Held`).
`Invariants.Steady` is the invariant with a running task that is not held, `Invariants.Calm` the
invariant with no task held.

A step keeps `Steady` if and only if it is legal (`Protocol.Legal`) and does not trip
(`Protocol.Trips`), and both can be read off the state before the step. The illegal steps are
exactly these:

- an accepted message of zero bytes to another task, or of at least one byte to the sender itself;
- starting a task that has been started before, or idle;
- an event for a ring that is full, or for no task (a panic in the code).

A step trips when it resumes a held task, or when a timeout left over from the interrupted wait of a
held task falls due: the kernel panics. Without a held task nothing trips.

A run is a sequence of legal steps. Ticks are always legal, so runs include every alarm, and a run
may panic. The run theorems are about every state of a run that has not panicked;
`Protocol.PanicExact`, `Protocol.HeldSince` and `BoundedWaiting.HeldPanics` say exactly when it
does. Hypotheses of every run theorem: the round-robin multi-queue scheduler, a build without
autotest, at most `CONFIG_MAX_TASKS` tasks counting idle, a quantum of at least one tick, distinct
handles, and an idle task that only yields. `Witnesses` reaches the illegal requests, a held task, a
panic and a starving idle from boot.

The memory gates have a situation of their own. New credentials given to another task while the
present user still has the shared memory mapped leave the new user stranded: a flag without a slot.
Its unmap panics, and nothing else does. `LayoutProofs` states exactly when.

Two documented claims differ from the code, and the model follows the code. The comment above the
CRC says that values are not reflected; the table and the step are those of the reflected CRC-32.
The cycle counter is described as the cycle count since startup; it loses one cycle at every wrap
of the hardware counter.

## Model

| member | source | states |
|---|---|---|
| `IpcGraph.IpcIterate` | kernel/src/managers/task/task_core.c:535-560 | finds the first cell at or after the index that holds a message, and reports none only when every such cell is empty |
| `IpcGraph.IpcGeneratesDeadlock` | kernel/src/syscalls/sysgate_send_ipc.c:25-68 | the stack loop, on every pending-message graph, ends and gives the verdict of the recursive depth-first search with the same number of frames |
| `IpcGraph.DetectVerdicts` | kernel/src/syscalls/sysgate_send_ipc.c:25-68 | on every graph: "deadlock" only when a chain of pending messages leads from target to sender; "safe" only when there is none and no cycle leads to the sender; "overflow" only when a cycle leads to the sender |
| `IpcGraph.DetectExact` | kernel/src/syscalls/sysgate_send_ipc.c:25-68 | on an acyclic graph the detector never exhausts its frames and answers deadlock if and only if a non-empty chain of pending messages leads from target to sender |
| `IpcGraph.NewEdgeAcyclic` | kernel/src/syscalls/sysgate_send_ipc.c:86-100 | storing one more message keeps the graph acyclic if and only if the receiver does not already lead to the sender |
| `GateProofs.SendRefusal` | kernel/src/syscalls/sysgate_send_ipc.c:76-94 | a refused send changes nothing but the return value: DEADLK exactly for an admissible length and a chain from target to sender, INVALID otherwise |
| `GateProofs.SendAccepted` | kernel/src/syscalls/sysgate_send_ipc.c:96-123 | an accepted send stores the length in the receiver's slot, blocks the sender with NON_SENSE, wakes a sleeping or waiting receiver and elects; a self-send stores the length and returns INVALID |
| `GateProofs.SendIpcKeeps` | kernel/src/syscalls/sysgate_send_ipc.c:70-139 | every refused send, the empty self-send and every send of at least one byte to another task keep the kernel invariant |
| `GateProofs.PushThenWake` | kernel/src/syscalls/sysgate_send_signal.c:32-56 | storing a signal for a waiting task makes it ready in the store and again in the gate; the two together are exactly one wake-up with INTR and no delayed job left |
| `GateProofs.SendSignalKeeps` | kernel/src/syscalls/sysgate_send_signal.c:10-60 | every signal request keeps the kernel invariant |
| `GateProofs.SleepKeeps` | kernel/src/syscalls/sysgate_sleep.c:11-50 | every sleep request keeps the kernel invariant |
| `GateProofs.ExitKeeps` | kernel/src/syscalls/sysgate_exit.c:10-41 | exit keeps the kernel invariant |
| `GateProofs.YieldKeeps` | kernel/src/syscalls/sysgate_yield.c:9-21 | yield keeps the kernel invariant |
| `GateProofs.FaultKeeps` | kernel/src/arch/asm-cortex-m/handler.c:77-96 | a user fault keeps the kernel invariant |
| `GateProofs.IrqKeeps` | kernel/src/managers/interrupt/interrupt.c:27-51 | an interrupt with room in the owner's ring keeps the kernel invariant |
| `GateProofs.DmaKeeps` | kernel/src/managers/interrupt/interrupt.c:85-109 | a DMA event with room in the owner's ring keeps the kernel invariant |
| `EventProofs.TakeIpcEffect` | kernel/src/managers/task/task_core.c:562-618 | delivering a message writes header and payload to the receiver, makes the sender ready with OK in the active jobset and clears the slot, and nothing else |
| `EventProofs.WaitEventKeeps` | kernel/src/syscalls/sysgate_waitforevent.c:95-157 | every wait request, whatever it delivers and with or without timeout, keeps the kernel invariant |
| `EventProofs.StartKeeps` | kernel/src/syscalls/sysgate_start.c:10-32 | starting a task that was never started, and every refused start, keep the kernel invariant |
| `EventProofs.SetAlarmKeeps` | kernel/src/syscalls/sysgate_alarm.c:17-31 | setting an alarm keeps the kernel invariant |
| `EventProofs.StopAlarmKeeps` | kernel/src/syscalls/sysgate_alarm.c:32-38 | stopping an alarm keeps the kernel invariant |
| `EventProofs.HandOffKeeps` | kernel/src/arch/asm-cortex-m/handler.c:312-336 | the handler takes the return value from the task it resumes and keeps the invariant, if and only if that task is not held (ready with NON_SENSE); otherwise it panics and changes nothing else |
| `Rrmq.BestTo` | kernel/src/sched/sched_rrmq.c:224-236 | the election loop's choice: highest priority among the cells seen, the lowest index among equals, none only when none is active |
| `Rrmq.InsertFinds` | kernel/src/sched/sched_rrmq.c:149-155 | with distinct jobs and at least one task kept out, an insertion always finds a free cell |
| `Rrmq.InsertKeeps` | kernel/src/sched/sched_rrmq.c:124-164 | waking a task adds exactly that job to the active jobset: counters, cells, the running job and the other jobset stay right, and the capacity panic is unreachable |
| `Rrmq.RetireKeeps` | kernel/src/sched/sched_rrmq.c:194-210 | a running job that loses the core moves to the backed jobset when ready and disappears when not; no job is lost or duplicated |
| `Rrmq.ChooseKeeps` | kernel/src/sched/sched_rrmq.c:211-246 | the choice runs idle exactly when no job is left, exchanges the jobsets only when the active one is empty, and otherwise picks the best cell of the jobset it serves; the empty-search branch is unreachable |
| `Rrmq.ElectKeeps` | kernel/src/sched/sched_rrmq.c:186-249 | an election keeps the jobset representation and conserves the ready jobs |
| `Rrmq.ElectQuanta` | kernel/src/sched/sched_rrmq.c:204-210 | after an election every queued job has at least one tick of quantum left |
| `TickProofs.HalfwayKeeps` | kernel/src/managers/time/delay.c:171-199 | unless a timeout of a held task falls due, the invariant holds after quantum refresh and the delayed-job loop, every cell has aged by one tick, and exactly the tasks with a due cell became ready, with TIMEOUT |
| `TickProofs.TickAlarmsKeep` | kernel/src/managers/time/delay.c:200-216 | the delayed-signal loop, whatever its alarms hit, keeps the invariant, ages every alarm, leaves pending signals alone, leaves a signal pending for every alarm that rang, and readies exactly the tasks that waited for events when their alarm rang |
| `TickProofs.TickKeeps` | kernel/src/arch/asm-cortex-m/systick.c:159-175 | a tick panics if and only if a left-over timeout of a held task falls due in it, and otherwise keeps the kernel invariant and the task that the quantum refresh gave the core |
| `TickProofs.TickHeld` | kernel/src/managers/time/delay.c:206-207 | after a tick a task is held if and only if it was held before, or one of its alarms rang in the tick while it waited for events with its alarm slot free and no timeout due |
| `Protocol.StepKeeps` | kernel/src/arch/asm-cortex-m/handler.c:255-337 | every legal kernel entry and exit keeps the invariant, or trips over a held task and panics |
| `Protocol.StepExact` | kernel/src/arch/asm-cortex-m/handler.c:255-337 | a step keeps the invariant if and only if it is legal (accepted messages have a byte and another receiver, only never-started tasks are started, event rings have room), does not resume a held task, and no timeout of a held task falls due in it |
| `Protocol.CalmExact` | kernel/src/arch/asm-cortex-m/handler.c:255-337 | from a state without held tasks, a step keeps the invariant without held tasks if and only if it is legal and no alarm hits a waiting task |
| `Protocol.StepHeld` | kernel/src/managers/time/delay.c:206-207 | a step that does not panic holds exactly the tasks held before it and those an alarm of a tick hits while they wait |
| `Protocol.SelfSendBreaks` | kernel/src/syscalls/sysgate_send_ipc.c:96-105 | a self-send of at least one byte leaves a message of a task that is not blocked |
| `Protocol.EmptySendBreaks` | kernel/src/syscalls/sysgate_send_ipc.c:76-100 | a send of zero bytes blocks the sender without leaving a message |
| `Protocol.StartBreaks` | kernel/src/syscalls/sysgate_start.c:25-28 | starting a task again, or idle, panics or puts a job in the queues twice |
| `Protocol.BootInv` | kernel/src/managers/task/task_init.c:284-314 | boot, after any number of tasks, satisfies the invariant and has started exactly the tasks that start automatically |
| `Protocol.RunKeeps` | kernel/src/arch/asm-cortex-m/handler.c:255-337 | in every run that starts in the invariant, every state satisfies it or the run has panicked before |
| `Protocol.PanicExact` | kernel/src/arch/asm-cortex-m/handler.c:321-333 | the next state of a run has panicked if and only if the step resumes a held task or a left-over timeout of a held task falls due in it |
| `Protocol.HeldSince` | kernel/src/managers/time/delay.c:206-207 | in a run from boot a task is held if and only if an alarm hit it, at an earlier tick, while it waited for events |
| `Protocol.RunCalm` | kernel/src/arch/asm-cortex-m/handler.c:255-337 | a run in which no alarm hits a waiting task never panics and never holds a task |
| `Protocol.BootRunKeeps` | kernel/src/managers/task/task_init.c:284-314 | the boot state satisfies the invariant with no task held, and every state reached from it satisfies the invariant or follows a panic |
| `Theorems.DeadlockFree` | kernel/src/syscalls/sysgate_send_ipc.c:18-24 | following a blocked sender to its receiver and on ends at a task that is not blocked on an IPC, and never returns |
| `Theorems.RunDeadlockFree` | kernel/src/syscalls/sysgate_send_ipc.c:70-139 | the same in every state of every run from boot, up to a panic |
| `Theorems.OneSlotPerSender` | kernel/src/managers/task/task_core.c:515-529 | a sender is blocked if and only if a slot holds its message, and then exactly one does, so no unread message is overwritten |
| `Theorems.ReadyIffQueued` | kernel/src/sched/sched_rrmq.c:124-249 | a started task is READY if and only if it occupies exactly one cell of the two jobsets; nothing else occupies any |
| `Theorems.RunTables` | kernel/src/sched/sched_rrmq.c:124-249 | both in every state of every run from boot, up to a panic, misfired alarms included |
| `Theorems.ElectionChoice` | kernel/src/sched/sched_rrmq.c:211-246 | an election runs idle if and only if no started task is READY, and otherwise a READY task of highest priority in the jobset it serves, the lowest cell among equals |
| `Theorems.SleepAlwaysSleeps` | kernel/src/syscalls/sysgate_sleep.c:24-28 | a sleep request is never refused for lack of room |
| `Theorems.RunNoLostWakeUp` | kernel/src/syscalls/sysgate_waitforevent.c:95-157 | in every run from boot, up to a panic, a task waits for events only while no event of a kind it asked for is pending |
| `Theorems.RunReturnsAndDelays` | kernel/src/arch/asm-cortex-m/handler.c:321-333 | in every run from boot, up to a panic, the task that runs is READY and holds no NON_SENSE; every task has at most one delayed job, only while it waits or is held, and every sleeper has one |
| `Theorems.RunCalmlyWaits` | kernel/src/arch/asm-cortex-m/handler.c:321-333 | a run from boot in which no alarm hits a waiting task never panics, holds nobody, and has delayed jobs of waiting tasks only |
| `Moves.MovedStep` | kernel/src/arch/asm-cortex-m/handler.c:255-337 | every step other than the tick, seen by the scheduler: the running task may leave READY, at most one other task becomes ready, at most one election follows |
| `BoundedWaiting.PatienceStep` | kernel/src/sched/sched_rrmq.c:186-249 | the elections a ready task can still be kept waiting shrink with every election and grow by at most two per wake-up, alarm hits counted as wake-ups |
| `BoundedWaiting.BoundedElections` | kernel/src/sched/sched_rrmq.c:186-249 | while a ready task is kept waiting, the elections of any run number fewer than twice the active jobs plus the backed jobs, plus two per wake-up, whether idle or a job was running |
| `BoundedWaiting.HeldPanics` | kernel/src/arch/asm-cortex-m/handler.c:321-333 | a run with a held task has panicked by the time it has made that many elections |
| `BoundedWaiting.BoundedTicks` | kernel/src/sched/sched_rrmq.c:263-281 | from any point on at which a job has the core, the ticks a ready task is kept waiting number fewer than (2a+b) times the longest quantum, plus two quanta per wake-up |
| `BoundedWaiting.IdleEnds` | kernel/src/sched/sched_rrmq.c:263-281 | with a task ready, a step ends idle's run if and only if it is idle's yield: the quantum refresh ignores idle |
| `BoundedWaiting.IdleUntilYield` | kernel/src/sched/sched_rrmq.c:263-281 | until idle yields it keeps the core through any number of ticks with tasks ready |
| `BoundedWaiting.TicksFromYield` | kernel/src/sched/sched_rrmq.c:263-281 | the bound on ticks counts from idle's first yield on when idle had the core |
| `Quantum.BudgetedRun` | kernel/src/sched/sched_rrmq.c:149-164 | in every state of a run every queued job other than the running one has exactly its whole quantum left |
| `Quantum.QuantumExact` | kernel/src/sched/sched_rrmq.c:263-281 | a task that gets the core, stays ready and does not yield keeps it through quantum - 1 ticks; in exactly the next one an election is held, which takes the core from it unless no other job was left in the active jobset; if it is chosen again it starts a whole quantum |
| `Quantum.BootQuantumExact` | kernel/src/sched/sched_rrmq.c:263-281 | the same for every run from boot |
| `Quantum.TurnBegins` | kernel/src/sched/sched_rrmq.c:186-249 | a task that gets the core has its whole quantum |
| `Priorities.WokenCompetes` | kernel/src/sched/sched_rrmq.c:124-249 | a task that became ready and has not run since is queued in the jobset that is being served, and every election since has chosen a job of at least its priority, over every run and whatever woke it |
| `Priorities.MoveServes` | kernel/src/sched/sched_rrmq.c:124-249 | a woken task is queued in the active jobset at once, and an election of the same step chooses a job of at least its priority |
| `Priorities.TickQueues` | kernel/src/managers/time/delay.c:171-216 | a task that a tick wakes is queued in the active jobset |
| `Answers.WaitAnswers` | kernel/src/syscalls/sysgate_waitforevent.c:95-157 | a wait is answered OK if and only if an event of a kind in the mask was pending, if and only if the area now decodes to one; AGAIN if and only if none was pending and the timeout is -1, and then nothing else changes; otherwise the caller is parked with NON_SENSE |
| `Answers.SendAnswers` | kernel/src/syscalls/sysgate_send_ipc.c:70-139 | DEADLK if and only if an admissible length meets a chain from target to caller, INVALID if and only if the length is too large or, without a chain, the target is unknown or the caller; otherwise the caller is blocked and its length is in the slot; refusals change nothing else |
| `Answers.SignalAnswers` | kernel/src/syscalls/sysgate_send_signal.c:10-60 | INVALID if and only if the target is unknown or the caller or the number is not 1 to 12, BUSY if and only if otherwise the slot is taken, OK if and only if otherwise, and then the slot holds the number |
| `Answers.SleepAnswers` | kernel/src/syscalls/sysgate_sleep.c:11-50 | INVALID if and only if the mode is unknown, and then nothing else changes; otherwise the caller sleeps in the mode asked for |
| `Answers.ExitAnswers` | kernel/src/syscalls/sysgate_exit.c:10-41 | the exit code is stored for the caller only; the caller is finished if it is zero and aborting otherwise |
| `Answers.YieldAnswers` | kernel/src/syscalls/sysgate_yield.c:9-21 | OK for the caller, and nothing changes but the running job |
| `Answers.FaultAnswers` | kernel/src/arch/asm-cortex-m/handler.c:77-96 | the caller is in its fault state, and nothing else changes but the running job |
| `Answers.StartAnswers` | kernel/src/syscalls/sysgate_start.c:10-32 | DENIED if and only if the capability is missing, INVALID if and only if otherwise the label is unknown, OK if and only if otherwise, and then the task is started |
| `Answers.AlarmAnswers` | kernel/src/syscalls/sysgate_alarm.c:17-31 | BUSY if and only if no alarm cell is free; otherwise OK, and one free cell is now the caller's alarm of that duration and kind |
| `Answers.StopAnswers` | kernel/src/syscalls/sysgate_alarm.c:32-38 | NO_ENTITY if and only if the caller has no alarm of that period; otherwise OK, and the first such alarm is free |
| `Answers.EventWakes` | kernel/src/managers/interrupt/interrupt.c:39-50 | a message, signal, interrupt or DMA event wakes a task that sleeps lightly or waits for events, with INTR, and leaves the state and return value of any other task alone |
| `Answers.StatusReaches` | kernel/src/arch/asm-cortex-m/handler.c:312-336 | a return value a ready task was given while others ran is unchanged until it gets the core, and is the one it is then handed, over every run |
| `Answers.ExitCode` | kernel/src/syscalls/sysgate_exit.c:10-41 | over every run, a task that has exited holds the code of its own exit request, and is finished if and only if that was zero |
| `Answers.ClockCounts` | kernel/src/arch/asm-cortex-m/systick.c:159-175 | over every run the clock has advanced by exactly the number of ticks |
| `Answers.WaitsForNothingPending` | kernel/src/syscalls/sysgate_waitforevent.c:95-157 | over every run, while a task waits no event of a kind that its own wait request asked for is pending |
| `Columns.RetGate` | kernel/src/arch/asm-cortex-m/handler.c:255-337 | no gate changes the return value of a task other than the caller and the task it wakes |
| `Columns.GateQueues` | kernel/src/arch/asm-cortex-m/handler.c:255-337 | rings change by interrupts and deliveries only, exit codes by exits only, the clock by ticks only |
| `Carriage.CarriedStep` | kernel/src/arch/asm-cortex-m/handler.c:255-337 | what every step other than the tick does to delay cells, alarm cells, message slots and exchange areas: only the woken task's delay cell, the stopped alarm, the posted or delivered slot and the caller's own area change |
| `Carriage.TickStepCarries` | kernel/src/arch/asm-cortex-m/systick.c:159-175 | a tick that does not panic ages every delay and alarm cell by one and touches no message and no area; exactly the due tasks become ready with TIMEOUT, and the tasks an alarm hits become ready |
| `Timing.ExactTimeout` | kernel/src/managers/time/delay.c:171-199 | over any run, up to a panic, a delayed job ends at exactly the tick it is due, not before, unless an event or an alarm ends the wait first |
| `Timing.DeepUndisturbed` | kernel/src/syscalls/sysgate_send_ipc.c:113-122 | no event ever interrupts a deep sleeper |
| `Timing.DeepSleepExact` | kernel/src/managers/time/delay.c:171-199 | a deep sleep of d ms lasts until exactly tick max(1, d) after the request, whatever else happens, and returns TIMEOUT |
| `Timing.ShallowSleepExact` | kernel/src/managers/time/delay.c:171-199 | a shallow sleep that no event ends lasts exactly as long |
| `Timing.InterruptWakes` | kernel/src/managers/interrupt/interrupt.c:39-50 | an event that ends a shallow sleep makes the task ready at that step |
| `Timing.TimedWaitExact` | kernel/src/syscalls/sysgate_waitforevent.c:148-154 | a wait with a timeout of d ms that finds nothing pending and that no event ends is ended by exactly tick d, with TIMEOUT |
| `Timing.EndlessWait` | kernel/src/syscalls/sysgate_waitforevent.c:148-154 | a wait without timeout lasts through any number of ticks until an event ends it |
| `Timing.AlarmBegins` | kernel/src/syscalls/sysgate_alarm.c:25-31 | a periodic alarm request arms a cell that rings in max(1, d) ticks |
| `Timing.PeriodicAlarm` | kernel/src/managers/time/delay.c:200-216 | after n ticks a periodic alarm of d ms that nobody stops has rung exactly n / max(1, d) times, rounded down |
| `Timing.OneShotAlarm` | kernel/src/managers/time/delay.c:200-216 | a one-shot alarm of d ms that nobody stops rings exactly once, at tick max(1, d) after the request, and its cell is free from then on until a request takes it |
| `Timing.RingLeavesSignal` | kernel/src/managers/time/delay.c:206-207 | an alarm that rings leaves the alarm signal in its task's own slot, unless a signal is pending there |
| `Integrity.HoldNext` | kernel/src/managers/task/task_core.c:562-618 | until it is delivered, no step changes a pending message: its slot, its sender's area and its sender's blocked state stay |
| `Integrity.DeliverNext` | kernel/src/managers/task/task_core.c:572-614 | a delivery never panics, empties the slot, releases the sender with OK, and the receiver decodes exactly the sender's bytes, handle and length |
| `Integrity.SlotOrigin` | kernel/src/managers/task/task_core.c:515-529 | every message pending at any point of a run was posted earlier by its sender with the text it had stored, and has not been delivered since |
| `Integrity.IpcIntegrity` | kernel/src/managers/task/task_core.c:562-618 | end to end over runs: what a receiver decodes at a delivery is exactly what the named sender had stored when it posted that message, delivered once, and the sender is released with OK |
| `Integrity.AreaHolds` | uapi/src/exchange.rs:250-266 | what a task wrote to its area stays there until it writes again or is given an event |
| `Integrity.MessageAsWritten` | kernel/src/managers/task/task_core.c:562-618 | from the write to the decoder: a message sent from an area the sender wrote and did not touch since is decoded by the receiver as the bytes the sender wrote |
| `Integrity.TerminalForever` | kernel/src/syscalls/sysgate_exit.c:17-40 | a task that has finished, aborted or faulted stays so for the rest of every run |
| `Delivery.SignalDelivered` | kernel/src/syscalls/sysgate_waitforevent.c:104-112 | a pending signal that is asked for is delivered first: the caller decodes its number and its sender, the slot is free again, nothing else is consumed |
| `Delivery.InterruptDelivered` | kernel/src/syscalls/sysgate_waitforevent.c:114-123 | otherwise the oldest interrupt is delivered, under the number its ring cell holds and with the device handle passed in |
| `Delivery.DmaDelivered` | kernel/src/syscalls/sysgate_waitforevent.c:124-134 | otherwise the oldest DMA event is delivered, and the later ones stay in order |
| `Delivery.RousedStatus` | kernel/src/managers/interrupt/interrupt.c:39-50 | a sender whose message is delivered gets OK, and a task that any other event wakes gets INTR |
| `Delivery.SignalKept` | kernel/src/managers/task/task_core.c:701-728 | a pending signal stays, with its number, exactly until its receiver is given it |
| `Delivery.SignalKeptRun` | kernel/src/managers/task/task_core.c:701-763 | over any run a signal is neither lost nor overwritten before its receiver is given it |
| `Delivery.SignalOrigin` | kernel/src/managers/task/task_core.c:701-728 | every signal pending at any point of a run was raised earlier, by the sender named with its number or by an alarm of its owner, and has been pending since |
| `Delivery.SignalIntegrity` | kernel/src/managers/task/task_core.c:701-763 | end to end over runs: the signal a task decodes has the number and sender with which it was raised, and is given once |
| `Arrivals.IrqArrives` | kernel/src/managers/task/task_core.c:474-489 | an interrupt joins the end of its owner's ring under its own number, and no other ring changes |
| `Arrivals.DmaArrives` | kernel/src/managers/task/task_core.c:635-661 | a DMA event joins the end of its owner's ring as it is, and no other ring changes |
| `Arrivals.ReceivedKind` | kernel/src/syscalls/sysgate_waitforevent.c:103-134 | a task decodes an interrupt or a DMA event if and only if one was delivered to it, with the number, stream and event in its ring |
| `Arrivals.InterruptsReachTask` | kernel/src/managers/interrupt/interrupt.c:27-51 | over every kernel run, the interrupts a task decodes are those raised for it, in order, none repeated and only the last missing, each under its number if and only if it was not yet waiting when the one before it was received |
| `Arrivals.DmasReachTask` | kernel/src/managers/interrupt/interrupt.c:85-109 | over every kernel run, the DMA events raised for a task are those it has decoded followed by those in its ring |
| `Rings.RingIsFifo` | kernel/src/managers/task/task_core.c:635-696 | over any interleaving of pushes without overrun and loads, the DMA ring is a first-in first-out queue: nothing lost, repeated or reordered |
| `Rings.RingSize` | kernel/src/managers/task/task_core.c:648-651 | the ring calls itself full exactly when it holds 15 events and empty exactly when it holds none |
| `Rings.PopClearExact` | kernel/src/managers/task/task_core.c:501-508 | loading from the interrupt ring clears the next entry: it acts as a queue if and only if at most one entry was pending or the next one is 0 anyway |
| `Rings.InterruptsOfRun` | kernel/src/managers/task/task_core.c:474-512 | over any interleaving of pushes without overrun and loads, what a task reads are the interrupts of a queue, each under its own number if and only if it was not yet waiting when the one before it was taken, and as number 0 otherwise |
| `Rings.QueueTakesInOrder` | kernel/src/managers/task/task_core.c:474-512 | that queue takes everything pushed in arrival order, but for what it still holds: none lost, none repeated |
| `Exchange.EventRoundTrip` | uapi/src/exchange.rs:144-177 | what the kernel writes into an exchange area is what the user library decodes, if and only if the caller's buffer has room |
| `UserLibrary.EventFromKernel` | uapi/src/exchange.rs:144-177 | the decoder accepts exactly the well-formed events that fit, copies their data and leaves the rest of the buffer, and the whole buffer on rejection, untouched |
| `UserLibrary.BytesToKernel` | uapi/src/exchange.rs:250-266 | copies a buffer to the area, at most 128 bytes, leaving the rest of the area |
| `UserLibrary.Receive` | uapi/src/exchange.rs:144-177 | an event written by the kernel arrives with its kind, length, source and data |
| `Memcpy.OverlapExact` | kernel/src/zlib/string.c:64-78 | the 32-bit overlap test is exact for regions that fit the address space |
| `Memcpy.Copy` | kernel/src/zlib/string.c:83-113 | copies exactly the bytes asked for and nothing else, or nothing for a null address or regions that overlap in part |
| `Memcpy.DeliverMessage` | kernel/src/managers/task/task_core.c:597-602 | storing the header and copying the payload between two disjoint areas turns the receiver's area into the event the model writes, and changes no other byte of memory |
| `Machine.Kernel.constructor` | kernel/src/managers/task/task_init.c:226-229 | the state after the managers' initialisation: all tasks READY, nothing scheduled or pending |
| `Machine.Kernel.GetCurrent` | kernel/src/sched/sched_rrmq.c:251-260 | the running job, idle when there is none |
| `Machine.Kernel.NotInJobset` | kernel/src/sched/sched_rrmq.c:110-122 | true exactly when no active cell of the jobset belongs to the task |
| `Machine.Kernel.AddToJobset` | kernel/src/sched/sched_rrmq.c:124-164 | refines the specified insertion, in either jobset, for every argument and state |
| `Machine.Kernel.Pick` | kernel/src/sched/sched_rrmq.c:224-236 | the search loop finds the best cell as specified |
| `Machine.Kernel.SchedElect` | kernel/src/sched/sched_rrmq.c:186-249 | refines the specified election on every well-formed state |
| `Machine.Kernel.SchedRefresh` | kernel/src/sched/sched_rrmq.c:263-281 | refines the specified quantum refresh |
| `Machine.Kernel.DelayAddJob` | kernel/src/managers/time/delay.c:60-76 | takes the first free cell, fails exactly when there is none |
| `Machine.Kernel.DelayDelJob` | kernel/src/managers/time/delay.c:87-102 | frees the task's first cell, fails exactly when it has none |
| `Machine.Kernel.DelayAddSignal` | kernel/src/managers/time/delay.c:116-134 | takes the first free alarm cell, fails exactly when there is none |
| `Machine.Kernel.DelayDelSignal` | kernel/src/managers/time/delay.c:146-162 | frees the first alarm of that task and period, fails exactly when there is none |
| `Machine.Kernel.TickJobCell` | kernel/src/managers/time/delay.c:172-198 | one round of the delayed-job loop refines its specification, panic included |
| `Machine.Kernel.TickAlarmCell` | kernel/src/managers/time/delay.c:201-215 | one round of the delayed-signal loop refines its specification |
| `Machine.Kernel.SystemTick` | kernel/src/arch/asm-cortex-m/systick.c:159-175 | clock, refresh and both loops, in this order, refine the specified tick |
| `Machine.Kernel.PushSigEvent` | kernel/src/managers/task/task_core.c:701-728 | stores the signal in a free slot and readies a waiting receiver, fails exactly when the slot is taken or the target unknown |
| `Machine.Kernel.LoadSigEvent` | kernel/src/managers/task/task_core.c:730-763 | takes the first pending signal |
| `Machine.Kernel.LoadIntEvent` | kernel/src/managers/task/task_core.c:491-512 | takes the oldest interrupt and clears the entry after it |
| `Machine.Kernel.LoadDmaEvent` | kernel/src/managers/task/task_core.c:663-696 | takes the oldest DMA event |
| `Machine.Kernel.LoadIpcEvent` | kernel/src/managers/task/task_core.c:562-618 | delivers the first pending message and releases its sender |
| `Machine.Kernel.StartTasks` | kernel/src/managers/task/task_init.c:284-314 | the boot loop reaches the specified boot state without panic, and the invariant holds there |
| `Machine.Kernel.GateSendIpc` | kernel/src/syscalls/sysgate_send_ipc.c:70-139 | refines the specified send, with the stack-based detector |
| `Machine.Kernel.GateSendSignal` | kernel/src/syscalls/sysgate_send_signal.c:10-60 | refines the specified signal gate |
| `Machine.Kernel.GateWaitForEvent` | kernel/src/syscalls/sysgate_waitforevent.c:95-157 | refines the specified wait gate: signal, interrupt, DMA, IPC in this order, then block |
| `Machine.Kernel.GateSleep` | kernel/src/syscalls/sysgate_sleep.c:11-50 | refines the specified sleep gate |
| `Machine.Kernel.GateExit` | kernel/src/syscalls/sysgate_exit.c:10-41 | refines the specified exit gate |
| `Machine.Kernel.GateYield` | kernel/src/syscalls/sysgate_yield.c:9-21 | refines the specified yield gate |
| `Machine.Kernel.FaultHandler` | kernel/src/arch/asm-cortex-m/handler.c:77-96 | refines the specified user fault |
| `Machine.Kernel.GateStart` | kernel/src/syscalls/sysgate_start.c:10-32 | refines the specified start gate |
| `Machine.Kernel.GateAlarmStart` | kernel/src/syscalls/sysgate_alarm.c:17-31 | refines the specified alarm request |
| `Machine.Kernel.GateAlarmStop` | kernel/src/syscalls/sysgate_alarm.c:32-38 | refines the specified alarm stop |
| `Machine.Kernel.UserIsr` | kernel/src/managers/interrupt/interrupt.c:27-51 | refines the specified interrupt delivery |
| `Machine.Kernel.DmaIsr` | kernel/src/managers/interrupt/interrupt.c:85-109 | refines the specified DMA event delivery |
| `Machine.Kernel.ReturnToUser` | kernel/src/arch/asm-cortex-m/handler.c:312-336 | refines the specified hand-off of the return value |
| `Machine.Kernel.Enter` | kernel/src/arch/asm-cortex-m/handler.c:255-337 | one kernel entry and exit does what the specification says; from a state with the invariant it keeps the invariant if and only if the step is legal and trips over no held task |
| `Witnesses.IllegalReached` | kernel/src/syscalls/sysgate_send_ipc.c:76-105 | one step after boot the running task can send to itself, send an empty message to idle, or start itself again; none is refused and none keeps the invariant |
| `Witnesses.SelfSendLeaves` | kernel/src/syscalls/sysgate_send_ipc.c:96-105 | the self-send leaves a message in the slot of a sender that is READY |
| `Witnesses.EmptySendLeaves` | kernel/src/syscalls/sysgate_send_ipc.c:76-100 | the empty send leaves its sender blocked with no message in any slot |
| `Witnesses.HeldReached` | kernel/src/managers/time/delay.c:206-207 | on every board, a task that arms an alarm of 1 ms and then waits is held four steps after boot |
| `Witnesses.PanicReached` | kernel/src/arch/asm-cortex-m/handler.c:321-333 | with one task besides idle, idle's yield after that panics |
| `Witnesses.IdleStarves` | kernel/src/sched/sched_rrmq.c:263-281 | on every board and for every n, n ticks after boot without a yield no task has had the core although one was ready |
| `Layout.ForgeBase` | kernel/include/sentry/arch/asm-cortex-m/mpu_pmsa_v8.h:178-204 | the base address of a forged region reads back |
| `Layout.ForgeUsed` | kernel/include/sentry/arch/asm-cortex-m/mpu_pmsa_v8.h:236-245 | a forged region is never taken for a free slot |
| `Layout.ForgeWritable` | kernel/include/sentry/arch/asm-cortex-m/mpu_pmsa_v8.h:178-204 | a forged region is writable exactly when that was asked for |
| `LayoutProofs.DeviceFound` | kernel/src/syscalls/sysgate_map.c:114-118 | a mapped device is always found in its owner's table, so unmapping it cannot panic |
| `LayoutProofs.ServeExact` | kernel/src/syscalls/sysgate_map.c:20-211 | after any map, unmap or credential request device and owner flags agree with the tables (exactly one slot of the owner holds the base), an owner's slot is writable exactly as its present credentials say, and nothing has panicked; if and only if the request is not the unmap of a stranded user |
| `LayoutProofs.ServeInStep` | kernel/src/syscalls/sysgate_shm_set_creds.c:37-63 | the flag of the task a memory is lent to stays in step with its table if and only if new credentials go to the owner, to the present user, or while the present user has not mapped it |
| `LayoutProofs.LendingStrands` | kernel/src/syscalls/sysgate_shm_set_creds.c:37-63 | lending to another task while the present user has the memory mapped makes the new user's unmap panic |
| `LayoutProofs.MemoryBoots` | kernel/src/managers/memory/memory_shm.c:36-80 | the tables and flags left by task, device and shared memory initialisation satisfy the agreement, for owners and users |
| `LayoutProofs.ServeAgrees` | kernel/src/syscalls/sysgate_map.c:20-211 | every call keeps the agreement and the text and data slots, after a panic too, and panics if and only if it is the unmap of a stranded user |
| `LayoutProofs.RunAgrees` | kernel/src/syscalls/sysgate_map.c:20-211 | the agreement holds in every state of every run of the gates, panicked or not |
| `LayoutProofs.RunPanicsExactly` | kernel/src/syscalls/sysgate_map.c:174-211 | a run has panicked if and only if a stranded user has unmapped in it |
| `LayoutProofs.BootRunAgrees` | kernel/src/syscalls/sysgate_map.c:20-211 | all of this for every run from boot |
| `LayoutProofs.StrandedReached` | kernel/src/syscalls/sysgate_shm_set_creds.c:37-63 | a run from boot that strands a user: lend, map, lend to another task; that task's unmap panics and the first keeps the memory in its table |
| `LayoutProofs.RunInStep` | kernel/src/syscalls/sysgate_shm_set_creds.c:9-67 | with credential requests in step no task is ever stranded, over every run |
| `LayoutProofs.TextDataForever` | kernel/src/managers/memory/memory_mpu.c:172-381 | text and data slots of every task never change, over every run |
| `LayoutProofs.DeviceUndone` | kernel/src/syscalls/sysgate_map.c:20-123 | mapping a device and unmapping it restores tables and flags |
| `LayoutProofs.ShmUndone` | kernel/src/syscalls/sysgate_map.c:133-211 | mapping a shared memory and unmapping it restores tables and flags, for owner and user |
| `Credentials.MapDeviceAnswers` | kernel/src/syscalls/sysgate_map.c:20-76 | a device is mapped if and only if the caller owns it, holds its capability, has not mapped it and has a free slot; DENIED, INVALID and BUSY each if and only if, and then nothing else changes |
| `Credentials.UnmapDeviceAnswers` | kernel/src/syscalls/sysgate_map.c:79-123 | a device is unmapped if and only if the caller owns it, holds its capability and has mapped it |
| `Credentials.MapShmAnswers` | kernel/src/syscalls/sysgate_map.c:133-172 | a shared memory is mapped if and only if it can be and the caller's credentials allow it, the caller has not mapped it and has a free slot; each refusal if and only if |
| `Credentials.UnmapShmAnswers` | kernel/src/syscalls/sysgate_map.c:174-211 | a shared memory is unmapped if and only if the caller has mapped it |
| `Credentials.SetCredsAnswers` | kernel/src/syscalls/sysgate_shm_set_creds.c:9-67 | credentials are set if and only if the caller is the owner and has not mapped the memory, and the target is known; each refusal if and only if |
| `Credentials.ForgeRegion` | kernel/include/sentry/arch/asm-cortex-m/mpu_pmsa_v8.h:178-204 | the registers forged decode to the region asked for: base, limit, access, no execution, attributes, enabled |
| `Credentials.TextRegion` | kernel/src/managers/memory/memory_mpu.c:465-477 | the text registers decode to a read-only executable region |
| `Credentials.RunGuarded` | kernel/src/managers/memory/memory_mpu.c:172-500 | in every state of every run from boot text is executable and not writable, data writable and not executable, every other slot free or exactly the region of a device or shared memory, and nothing is both writable and executable |
| `Credentials.CredentialsRun` | kernel/src/managers/memory/memory_shm.c:570-606 | in every state of every run from boot the owner and the user of a memory have exactly the rights of the last granted request addressed to them, and none before |
| `Credentials.OwnerWritable` | kernel/src/syscalls/sysgate_shm_set_creds.c:37-63 | a mapped owner has exactly the memory's region in a slot, writable if and only if the last granted request addressed to the owner asked for that |
| `Credentials.MapShmGives` | kernel/src/syscalls/sysgate_map.c:133-172 | a successful mapping puts exactly the memory's region into a slot of the caller, writable if and only if its rights say so |
| `Credentials.UserGets` | kernel/src/syscalls/sysgate_shm_set_creds.c:37-63 | over every run, a task a memory is lent to can map it only as the last granted request addressed to it allows, and gets it writable if and only if that asked for it |
| `MemoryMachine.GetFreeId` | kernel/include/sentry/arch/asm-cortex-m/mpu.h:155-175 | finds the first free slot, or reports that there is none |
| `MemoryMachine.GetIdFromAddress` | kernel/include/sentry/arch/asm-cortex-m/mpu.h:189-212 | finds the region number of the first slot that holds the address, or reports that there is none |
| `MemoryMachine.MemoryManager.constructor` | kernel/src/managers/task/task_init.c:226-240 | the boot loops reach the specified boot state: text and data in the first two slots, nothing else mapped |
| `MemoryMachine.MemoryManager.AddResource` | kernel/src/managers/task/task_core.c:765-784 | writes one slot of one task, and refuses exactly an unknown task or a slot past the end |
| `MemoryMachine.MemoryManager.RemoveResource` | kernel/src/managers/task/task_core.c:790-801 | clears one slot of one task, and refuses exactly an unknown task |
| `MemoryMachine.MemoryManager.GateMapDevice` | kernel/src/syscalls/sysgate_map.c:20-76 | refines the specified device mapping, every refusal included |
| `MemoryMachine.MemoryManager.GateUnmapDevice` | kernel/src/syscalls/sysgate_map.c:79-123 | refines the specified device unmapping |
| `MemoryMachine.MemoryManager.GateMapShm` | kernel/src/syscalls/sysgate_map.c:133-172 | refines the specified shared memory mapping |
| `MemoryMachine.MemoryManager.GateUnmapShm` | kernel/src/syscalls/sysgate_map.c:174-211 | refines the specified shared memory unmapping |
| `MemoryMachine.MemoryManager.GateShmSetCreds` | kernel/src/syscalls/sysgate_shm_set_creds.c:9-67 | refines the specified credential gate |
| `MemoryMachine.MemoryManager.Handle` | kernel/src/syscalls/sysgate_map.c:20-211 | one memory gate keeps device and owner agreement without panic if and only if the caller is not a stranded user |
| `Crc.EntryOk` | kernel/src/zlib/crypto/crc32.c:10-44 | every one of the 256 table entries is eight register steps of its index |
| `Crc.UpdateIsSerial` | kernel/src/zlib/crypto/crc32.c:68 | the table step equals feeding the eight bits of the octet one by one, for every octet and register |
| `Crc.Crc32` | kernel/src/zlib/crypto/crc32.c:71-91 | the loop computes the bit-by-bit reflected CRC with polynomial 0xEDB88320 of every buffer from every initial value; without a buffer it returns the initial value |
| `Crc.SerialComposes` | kernel/src/zlib/crypto/crc32.c:49-52 | the CRC of data split over two buffers is obtained by passing the first result on |
| `Crc.SerialInjective` | kernel/src/zlib/crypto/crc32.c:71-91 | different initial values give different results on the same data |
| `Crc.OctetChangeDetected` | kernel/src/zlib/crypto/crc32.c:71-91 | changing any one octet of a message changes its CRC |
| `LogPrinter.TextReads` | kernel/src/managers/debug/log_lexer.c:125-154 | the digits of every number, in base 8, 10 or 16, read back to it |
| `LogPrinter.NoLeadingZero` | kernel/src/managers/debug/log_lexer.c:125-154 | there is no redundant leading zero |
| `LogPrinter.TextFits` | kernel/src/managers/debug/log_lexer.c:119-141 | a 64-bit number has at most 22 digits, so the digit store never overflows |
| `LogPrinter.NumberLength` | kernel/src/managers/debug/log_lexer.c:175-189 | the length counted beforehand is the number of digits |
| `LogPrinter.PaddedField` | kernel/src/managers/debug/log_lexer.c:484-586 | a zero-padded field has the larger of width and digit count and still reads as the number |
| `LogPrinter.WidthExact` | kernel/src/managers/debug/log_lexer.c:290-314 | a field has the width asked for if and only if that is below 256 |
| `LogPrinter.ParseSize` | kernel/src/managers/debug/log_lexer.c:299-306 | the width parsed is the decimal number in the format, modulo 256 |
| `LogPrinter.DbgBuffer.WriteChar` | kernel/src/managers/debug/log_lexer.c:68-79 | the buffer always holds exactly the first 128 characters offered since the last flush |
| `LogPrinter.DbgBuffer.Flush` | kernel/src/managers/debug/log_lexer.c:51-55 | empties the buffer |
| `LogPrinter.DbgBuffer.WriteU64` | kernel/src/managers/debug/log_lexer.c:125-154 | offers exactly the digits of the number, most significant first, and nothing for another base |
| `LogPrinter.DbgBuffer.PrintUnsigned` | kernel/src/managers/debug/log_lexer.c:484-586 | offers the padded field of the %u, %x and %o conversions |
| `CycleCounter.ReadExact` | kernel/src/arch/asm-cortex-m/tick.c:29-44 | a read keeps the promised count if and only if at least one cycle and at most 2^32 have passed since the one before |
| `CycleCounter.CountExact` | kernel/src/arch/asm-cortex-m/tick.c:29-44 | after any run of reads so spaced the count is the true count less exactly the number of 32-bit wraps |
| `CycleCounter.SameCycleJumps` | kernel/src/arch/asm-cortex-m/tick.c:35-40 | two reads in the same cycle make the count jump by 2^32 - 1 |
| `CycleCounter.PromisedGrows` | kernel/src/arch/asm-cortex-m/tick.c:25-44 | the promised count never decreases |
| `CycleCounter.SysTime.Init` | kernel/src/arch/asm-cortex-m/tick.c:13-23 | starts the count at what the hardware counter shows |
| `CycleCounter.SysTime.GetCycle` | kernel/src/arch/asm-cortex-m/tick.c:29-44 | the 64-bit count after a read, its agreement with the promised count, and that it does not decrease |

## Left out

- Context save and restore, stack frames, interrupt controller and barriers: a context switch changes the running job only.
- Register r0 at the handler's exit: the value taken from the resumed task stands for it.
- Code after a panic: a panic sets a flag, after which nothing happens.
- Bit-level packing of handles and their random part: a handle is the index of its task, device or shared memory, and an index past the end stands for a handle that names nothing; the handles written into messages are distinct 32-bit numbers.
- Arrays of structures and pointers into them: the tables are sequence-valued fields of a class and pointers into them are indices; the exchange areas of different tasks are separate.
- Machine.Kernel.SystemTick: does not refresh the cycle counter, which has its own model in `CycleCounter` and shares no state with the tables.
- Machine.Kernel.LoadIpcEvent: a length above 120 copies 120 bytes, where the code would write past the area; no such length is reachable.
- Mapping of the sender's exchange area during a delivery, and of the next task's regions: no effect on the modelled tables.
- Delivery.InterruptDelivered: the device looked up from the interrupt number is a parameter of the wait gate, and the number is the one the ring cell holds, which `Rings.InterruptsOfRun` shows to be 0 for an interrupt that had to wait behind another.
- MemoryMachine.MemoryManager.RemoveResource: a slot past the end is excluded, because the code writes outside the table there without a check; its callers pass a slot they have found.
- The alarm gate's answer to an unknown flag (INVALID) and the autotest branches of the gates.
- Tick frequencies other than 1000 Hz: one tick is one millisecond.
- The FIFO scheduler, which is not the default, and the PMSAv7 layout path, which passes a region number where a table index is expected.
- Device clocks, pins and interrupt configuration done when a device is first mapped.
- Decoding of permission bits into credentials, and the read-only getters of the shared memory manager.
- Signed, long, short, pointer, character and string conversions of the log printer, and the format string dispatch: %u, %x and %o and their zero padding carry the arithmetic.
- GPIO, clock, power, random, log and handle lookup gates: single checks over other managers.
- Drivers, boot sanity checks of task metadata, and the bodies of the idle and autotest applications.
