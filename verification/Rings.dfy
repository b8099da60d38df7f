/** The per-task event rings of the task manager: DMA events and interrupt numbers.

Both rings keep `head` (next cell to write) and `bottom` (next cell to read) in a table of
16 cells and call themselves full when only one cell is free.
*/
module Rings {

  const DEPTH := 16

  datatype Ring<+T> = Ring(buf: seq<T>, head: nat, bottom: nat)

  predicate ValidRing<T>(r: Ring<T>) {
    |r.buf| == DEPTH && r.head < DEPTH && r.bottom < DEPTH
  }

  /** The events still to be read, oldest first. */
  function Contents<T>(r: Ring<T>): seq<T>
    requires ValidRing(r)
  {
    if r.bottom <= r.head then r.buf[r.bottom..r.head] else r.buf[r.bottom..] + r.buf[..r.head]
  }

  predicate IsFull<T>(r: Ring<T>) {
    (r.head + 1) % DEPTH == r.bottom
  }

  predicate IsEmpty<T>(r: Ring<T>) {
    r.head == r.bottom
  }

  function Push<T>(r: Ring<T>, x: T): (q: Ring<T>)
    requires ValidRing(r)
    ensures ValidRing(q)
  {
    Ring(r.buf[r.head := x], (r.head + 1) % DEPTH, r.bottom)
  }

  /** Reading a DMA event advances `bottom`. */
  function Pop<T>(r: Ring<T>): (q: Ring<T>)
    requires ValidRing(r)
    ensures ValidRing(q)
  {
    Ring(r.buf, r.head, (r.bottom + 1) % DEPTH)
  }

  /** Reading an interrupt advances `bottom` and then zeroes the cell at the new `bottom`. */
  function PopClear(r: Ring<nat>): (q: Ring<nat>)
    requires ValidRing(r)
    ensures ValidRing(q)
  {
    var bottom := (r.bottom + 1) % DEPTH;
    Ring(r.buf[bottom := 0], r.head, bottom)
  }

  lemma RingSize<T>(r: Ring<T>)
    requires ValidRing(r)
    ensures |Contents(r)| < DEPTH
    ensures IsEmpty(r) <==> |Contents(r)| == 0
    ensures IsFull(r) <==> |Contents(r)| == DEPTH - 1
  {
    assert |Contents(r)| == if r.bottom <= r.head then r.head - r.bottom else DEPTH - r.bottom + r.head;
  }

  lemma PushFifo<T>(r: Ring<T>, x: T)
    requires ValidRing(r) && !IsFull(r)
    ensures Contents(Push(r, x)) == Contents(r) + [x]
  {
    var c, d := Contents(r), Contents(Push(r, x));
    assert |d| == |c| + 1;
  }

  lemma PopFifo<T>(r: Ring<T>)
    requires ValidRing(r) && !IsEmpty(r)
    ensures Contents(r) == [r.buf[r.bottom]] + Contents(Pop(r))
  {
    var c, d := Contents(r), Contents(Pop(r));
    assert |c| == |d| + 1 && c[0] == r.buf[r.bottom];
  }

  /** The interrupt ring loses the number of the next pending interrupt when there is one:
      reading is a FIFO read exactly when at most one interrupt was pending or the next is number 0. */
  lemma PopClearExact(r: Ring<nat>)
    requires ValidRing(r) && !IsEmpty(r)
    ensures Contents(r)[0] == r.buf[r.bottom]
    ensures |Contents(PopClear(r))| == |Contents(r)| - 1
    ensures Contents(PopClear(r)) == Contents(r)[1..] <==> (|Contents(r)| == 1 || Contents(r)[1] == 0)
  {
    PopFifo(r);
    var c, d, e := Contents(r), Contents(Pop(r)), Contents(PopClear(r));
    assert c[1..] == d;
    assert |e| == |d|;
    if |c| > 1 {
      assert e[0] == 0 && d[0] == c[1];
      assert forall i :: 1 <= i < |e| ==> e[i] == d[i];
    }
  }

  // ---- Whole runs of the DMA ring ---------------------------------------------------------

  datatype RingOp<+T> = DoPush(event: T) | DoLoad

  /** No push of the run meets a full ring, where the kernel panics. */
  predicate NoOverrun<T>(r: Ring<T>, ops: seq<RingOp<T>>)
    requires ValidRing(r)
    decreases |ops|
  {
    ops == [] || ((ops[0].DoPush? ==> !IsFull(r)) && NoOverrun(Apply(r, ops[0]), ops[1..]))
  }

  function Apply<T>(r: Ring<T>, op: RingOp<T>): (q: Ring<T>)
    requires ValidRing(r)
    ensures ValidRing(q)
  {
    match op
    case DoPush(x) => Push(r, x)
    case DoLoad => if IsEmpty(r) then r else Pop(r)
  }

  function Final<T>(r: Ring<T>, ops: seq<RingOp<T>>): (q: Ring<T>)
    requires ValidRing(r)
    ensures ValidRing(q)
    decreases |ops|
  {
    if ops == [] then r else Final(Apply(r, ops[0]), ops[1..])
  }

  /** The events the loads of the run returned, in order. */
  function Loaded<T>(r: Ring<T>, ops: seq<RingOp<T>>): seq<T>
    requires ValidRing(r)
    decreases |ops|
  {
    if ops == [] then []
    else (if ops[0].DoLoad? && !IsEmpty(r) then [r.buf[r.bottom]] else []) + Loaded(Apply(r, ops[0]), ops[1..])
  }

  function Pushed<T>(ops: seq<RingOp<T>>): seq<T> {
    if ops == [] then [] else (if ops[0].DoPush? then [ops[0].event] else []) + Pushed(ops[1..])
  }

  /** Over any run without overrun, events leave in arrival order, none lost and none repeated. */
  lemma {:induction false} RingIsFifo<T>(r: Ring<T>, ops: seq<RingOp<T>>)
    requires ValidRing(r) && NoOverrun(r, ops)
    ensures Contents(r) + Pushed(ops) == Loaded(r, ops) + Contents(Final(r, ops))
    decreases |ops|
  {
    if ops != [] {
      var q, rest := Apply(r, ops[0]), ops[1..];
      RingIsFifo(q, rest);
      match ops[0]
      case DoPush(x) =>
        PushFifo(r, x);
        Regroup(Contents(r), x, Pushed(rest));
      case DoLoad =>
        if !IsEmpty(r) {
          PopFifo(r);
          Shift(r.buf[r.bottom], Contents(q), Pushed(rest), Loaded(q, rest), Contents(Final(q, rest)));
        }
    }
  }

  // ---- Whole runs of the interrupt ring ---------------------------------------------------

  function ApplyInterrupt(r: Ring<nat>, op: RingOp<nat>): (q: Ring<nat>)
    requires ValidRing(r)
    ensures ValidRing(q)
  {
    match op
    case DoPush(x) => Push(r, x)
    case DoLoad => if IsEmpty(r) then r else PopClear(r)
  }

  predicate NoInterruptOverrun(r: Ring<nat>, ops: seq<RingOp<nat>>)
    requires ValidRing(r)
    decreases |ops|
  {
    ops == [] || ((ops[0].DoPush? ==> !IsFull(r)) && NoInterruptOverrun(ApplyInterrupt(r, ops[0]), ops[1..]))
  }

  /** The numbers the loads of the run returned, in order. */
  function LoadedInterrupts(r: Ring<nat>, ops: seq<RingOp<nat>>): seq<nat>
    requires ValidRing(r)
    decreases |ops|
  {
    if ops == [] then []
    else (if ops[0].DoLoad? && !IsEmpty(r) then [r.buf[r.bottom]] else []) +
         LoadedInterrupts(ApplyInterrupt(r, ops[0]), ops[1..])
  }

  /** An interrupt taken from a queue, and whether it already waited when the one before it was taken. */
  datatype Taken = Taken(number: nat, waited: bool)

  /** A plain queue under the same run; `waited` is about its first element. */
  function QueueTakes(queue: seq<nat>, waited: bool, ops: seq<RingOp<nat>>): seq<Taken>
    decreases |ops|
  {
    if ops == [] then []
    else match ops[0]
      case DoPush(x) => QueueTakes(queue + [x], waited && queue != [], ops[1..])
      case DoLoad =>
        if queue == [] then QueueTakes([], false, ops[1..])
        else [Taken(queue[0], waited)] + QueueTakes(queue[1..], |queue| > 1, ops[1..])
  }

  /** The ring holds the queue, the number of a first element that waited replaced by 0. */
  ghost predicate HoldsQueue(r: Ring<nat>, queue: seq<nat>, waited: bool) {
    && ValidRing(r) && |Contents(r)| == |queue|
    && forall i :: 0 <= i < |queue| ==> Contents(r)[i] == if i == 0 && waited then 0 else queue[i]
  }

  lemma LoadHoldsQueue(r: Ring<nat>, queue: seq<nat>, waited: bool)
    requires HoldsQueue(r, queue, waited) && queue != []
    ensures HoldsQueue(PopClear(r), queue[1..], |queue| > 1)
  {
    PopFifo(r);
    var c, d, e := Contents(r), Contents(Pop(r)), Contents(PopClear(r));
    assert c[1..] == d && |e| == |d|;
    assert forall i :: 1 <= i < |e| ==> e[i] == d[i] == c[i + 1] == queue[1..][i];
  }

  lemma PushHoldsQueue(r: Ring<nat>, queue: seq<nat>, waited: bool, x: nat)
    requires HoldsQueue(r, queue, waited) && !IsFull(r)
    ensures HoldsQueue(Push(r, x), queue + [x], waited && queue != [])
  {
    PushFifo(r, x);
  }

  lemma FirstOfQueue(r: Ring<nat>, queue: seq<nat>, waited: bool)
    requires HoldsQueue(r, queue, waited)
    ensures ValidRing(r) && (IsEmpty(r) <==> queue == [])
    ensures queue != [] ==> r.buf[r.bottom] == if waited then 0 else queue[0]
  {
    RingSize(r);
    if queue != [] {
      PopFifo(r);
      assert Contents(r)[0] == r.buf[r.bottom];
    }
  }

  /** What the ring's reader sees of the interrupts taken: the number of one that waited reads 0. */
  function ReadAs(taken: seq<Taken>): seq<nat> {
    if taken == [] then [] else [if taken[0].waited then 0 else taken[0].number] + ReadAs(taken[1..])
  }

  /** Over any run without overrun, a task reads the interrupts of a queue, and one keeps its
      number exactly when it was not yet waiting when the one before it was taken; otherwise it is
      read as number 0. */
  lemma {:induction false} InterruptsOfRun(r: Ring<nat>, queue: seq<nat>, waited: bool, ops: seq<RingOp<nat>>)
    requires HoldsQueue(r, queue, waited) && NoInterruptOverrun(r, ops)
    ensures LoadedInterrupts(r, ops) == ReadAs(QueueTakes(queue, waited, ops))
    decreases |ops|
  {
    hide HoldsQueue;
    FirstOfQueue(r, queue, waited);
    if ops != [] {
      match ops[0]
      case DoPush(x) =>
        PushHoldsQueue(r, queue, waited, x);
        InterruptsOfRun(Push(r, x), queue + [x], waited && queue != [], ops[1..]);
      case DoLoad =>
        if queue == [] {
          EmptyQueue(r, waited);
          InterruptsOfRun(r, [], false, ops[1..]);
        } else {
          LoadHoldsQueue(r, queue, waited);
          InterruptsOfRun(PopClear(r), queue[1..], |queue| > 1, ops[1..]);
          var rest := QueueTakes(queue[1..], |queue| > 1, ops[1..]);
          assert ([Taken(queue[0], waited)] + rest)[1..] == rest;
        }
    }
  }

  lemma EmptyQueue(r: Ring<nat>, waited: bool)
    requires HoldsQueue(r, [], waited)
    ensures HoldsQueue(r, [], false)
  {
  }

  function Numbers(taken: seq<Taken>): seq<nat> {
    if taken == [] then [] else [taken[0].number] + Numbers(taken[1..])
  }

  lemma NumbersNone()
    ensures Numbers([]) == []
  {
  }

  lemma NumbersFirst(first: Taken, rest: seq<Taken>)
    ensures Numbers([first] + rest) == [first.number] + Numbers(rest)
  {
    assert ([first] + rest)[1..] == rest;
  }

  /** What the queue still holds after the run. */
  function QueueLeft(queue: seq<nat>, ops: seq<RingOp<nat>>): seq<nat>
    decreases |ops|
  {
    if ops == [] then queue
    else match ops[0]
      case DoPush(x) => QueueLeft(queue + [x], ops[1..])
      case DoLoad => QueueLeft(if queue == [] then [] else queue[1..], ops[1..])
  }

  /** The queue takes in arrival order everything that was in it or pushed, but for what it still
      holds: none lost and none repeated. */
  lemma {:induction false} QueueTakesInOrder(queue: seq<nat>, waited: bool, ops: seq<RingOp<nat>>)
    ensures queue + Pushed(ops) == Numbers(QueueTakes(queue, waited, ops)) + QueueLeft(queue, ops)
    decreases |ops|
  {
    hide Numbers;
    NumbersNone();
    if ops == [] {
      assert queue + [] == [] + queue;
    } else {
      match ops[0]
      case DoPush(x) =>
        QueueTakesInOrder(queue + [x], waited && queue != [], ops[1..]);
        Regroup(queue, x, Pushed(ops[1..]));
      case DoLoad =>
        if queue == [] {
          QueueTakesInOrder([], false, ops[1..]);
        } else {
          var rest := QueueTakes(queue[1..], |queue| > 1, ops[1..]);
          QueueTakesInOrder(queue[1..], |queue| > 1, ops[1..]);
          NumbersFirst(Taken(queue[0], waited), rest);
          assert queue == [queue[0]] + queue[1..];
          Shift(queue[0], queue[1..], Pushed(ops[1..]), Numbers(rest), QueueLeft(queue[1..], ops[1..]));
        }
    }
  }

  lemma Regroup<T>(a: seq<T>, x: T, b: seq<T>)
    ensures a + ([x] + b) == (a + [x]) + b
  {
  }

  lemma Shift<T>(x: T, queue: seq<T>, pushed: seq<T>, loaded: seq<T>, last: seq<T>)
    requires queue + pushed == loaded + last
    ensures ([x] + queue) + pushed == ([x] + loaded) + last
  {
    assert ([x] + queue) + pushed == [x] + (queue + pushed);
    assert ([x] + loaded) + last == [x] + (loaded + last);
  }
}
