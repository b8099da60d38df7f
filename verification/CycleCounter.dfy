/** The 64-bit cycle count kept on top of the core's 32-bit cycle counter. */
module CycleCounter {

  const WRAP := 0x1_0000_0000               // the hardware counter has 32 bits
  const WRAP64 := 0x1_0000_0000_0000_0000

  /** What the hardware counter shows after `now` cycles. */
  function Shown(now: nat): nat {
    now % WRAP
  }

  /** How often the hardware counter has wrapped. */
  function Wraps(now: nat): nat {
    now / WRAP
  }

  /** What one read adds to the count. */
  function Added(dwt: nat, snap: nat): nat
    requires dwt < WRAP && snap < WRAP
  {
    if dwt > snap then dwt - snap else dwt + (WRAP - 1 - snap)
  }

  /** The count that is promised: true cycles since the start, less one for every wrap since. */
  function Promised(start: nat, now: nat): int {
    Shown(start) + (now - start) - (Wraps(now) - Wraps(start))
  }

  /** A read keeps the promise exactly when at least one cycle, and at most one whole turn of
      the counter, has passed since the one before. */
  lemma ReadExact(start: nat, before: nat, now: nat)
    requires start <= before <= now
    ensures Promised(start, before) + Added(Shown(now), Shown(before)) == Promised(start, now)
       <==> 1 <= now - before <= WRAP
  {
    var w := Wraps(now) - Wraps(before);
    assert now - before == w * WRAP + (Shown(now) - Shown(before));
    assert Promised(start, now) - Promised(start, before) == w * (WRAP - 1) + (Shown(now) - Shown(before));
  }

  /** Two reads in the same cycle make the count jump by a whole turn less one. */
  lemma SameCycleJumps(now: nat)
    ensures Added(Shown(now), Shown(now)) == WRAP - 1
  {
  }

  /** The promised count never decreases. */
  lemma PromisedGrows(start: nat, before: nat, now: nat)
    requires start <= before <= now
    ensures 0 <= Promised(start, before) <= Promised(start, now)
  {
    Spread(start, before);
    Spread(before, now);
  }

  lemma Spread(a: nat, b: nat)
    requires a <= b
    ensures Wraps(b) - Wraps(a) <= b - a
  {
  }

  /** The time of the read before read `i`, or of the start. */
  function Before(start: nat, times: seq<nat>, i: nat): nat
    requires i <= |times|
  {
    if i == 0 then start else times[i - 1]
  }

  /** The count after the first `k` reads. */
  function CountAfter(start: nat, times: seq<nat>, k: nat): nat
    requires k <= |times|
  {
    if k == 0 then Shown(start)
    else CountAfter(start, times, k - 1) + Added(Shown(times[k - 1]), Shown(Before(start, times, k - 1)))
  }

  predicate Spaced(start: nat, times: seq<nat>) {
    forall i :: 0 <= i < |times| ==> 1 <= times[i] - Before(start, times, i) <= WRAP
  }

  lemma SpacedAt(start: nat, times: seq<nat>, i: nat)
    requires Spaced(start, times) && i < |times|
    ensures 1 <= times[i] - Before(start, times, i) <= WRAP
  {
  }

  /** After any run of well-spaced reads the count is the true count less the number of wraps. */
  lemma {:induction false} CountExact(start: nat, times: seq<nat>, k: nat)
    requires Spaced(start, times) && k <= |times|
    ensures start <= Before(start, times, k) && CountAfter(start, times, k) == Promised(start, Before(start, times, k))
  {
    hide Spaced;
    if k > 0 {
      hide Promised, Added, Shown, Before;
      CountExact(start, times, k - 1);
      SpacedAt(start, times, k - 1);
      ReadExact(start, Before(start, times, k - 1), times[k - 1]);
      BeforeIs(start, times, k);
    }
  }

  lemma BeforeIs(start: nat, times: seq<nat>, k: nat)
    requires 0 < k <= |times|
    ensures Before(start, times, k) == times[k - 1]
  {
  }

  lemma AddWraps(a: nat, b: nat)
    ensures (a % WRAP64 + b) % WRAP64 == (a + b) % WRAP64
  {
  }

  /** The same on 64 bits. */
  lemma TrackStep(start: nat, before: nat, now: nat)
    requires start <= before <= now
    ensures 0 <= Promised(start, before) <= Promised(start, now)
    ensures 1 <= now - before <= WRAP ==>
              (Promised(start, before) % WRAP64 + Added(Shown(now), Shown(before))) % WRAP64 ==
                Promised(start, now) % WRAP64
  {
    PromisedGrows(start, before, now);
    hide Promised, Added, Shown;
    ReadExact(start, before, now);
    AddWraps(Promised(start, before), Added(Shown(now), Shown(before)));
  }

  lemma SmallMod(a: nat, b: nat)
    requires a <= b < WRAP64
    ensures a % WRAP64 <= b % WRAP64
  {
  }

  class SysTime {
    var cycleJiffies: nat
    var dwtSnap: nat
    ghost var start: nat     // cycle of the initialisation
    ghost var last: nat      // cycle of the last read

    ghost predicate Valid()
      reads this
    {
      start <= last && dwtSnap == Shown(last) && cycleJiffies < WRAP64
    }

    /** The 64-bit count is the promised one, on 64 bits. */
    ghost predicate Tracks()
      reads this
    {
      Valid() && cycleJiffies == Promised(start, last) % WRAP64
    }

    method Init(now: nat)
      modifies this
      ensures Tracks() && start == last == now
    {
      cycleJiffies := now % WRAP;
      dwtSnap := cycleJiffies;
      start, last := now, now;
    }

    /** A read at cycle `now`. */
    method GetCycle(now: nat) returns (count: nat)
      requires Valid() && last <= now
      modifies this
      ensures Valid() && last == now && start == old(start) && count == cycleJiffies
      ensures count == (old(cycleJiffies) + Added(Shown(now), Shown(old(last)))) % WRAP64
      ensures old(Tracks()) && 1 <= now - old(last) <= WRAP ==> Tracks()
      ensures old(Tracks()) && Tracks() && Promised(start, now) < WRAP64 ==> old(cycleJiffies) <= count
    {
      var dwt := now % WRAP;
      hide Promised;
      ghost var before, was, added := last, cycleJiffies, Added(dwt, dwtSnap);
      if dwt > dwtSnap {
        cycleJiffies := (cycleJiffies + (dwt - dwtSnap)) % WRAP64;
      } else {
        AddWraps(cycleJiffies + dwt, 0xFFFF_FFFF - dwtSnap);
        cycleJiffies := (cycleJiffies + dwt) % WRAP64;
        cycleJiffies := (cycleJiffies + (0xFFFF_FFFF - dwtSnap)) % WRAP64;
      }
      assert cycleJiffies == (was + added) % WRAP64;
      dwtSnap := dwt;
      last := now;
      count := cycleJiffies;
      TrackStep(start, before, now);
      if Promised(start, now) < WRAP64 {
        SmallMod(Promised(start, before), Promised(start, now));
      }
    }
  }
}
