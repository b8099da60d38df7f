/** Fixed-size tables of cells that hold one task each.

The scheduler's two jobsets, the delayed-job table and the delayed-signal table are all
arrays of cells with an `active` flag and a task handler. A table is abstracted to how
many active cells each task occupies, so that a lost or a duplicated job shows as a
count that is too small or too large.
*/
module Slots {

  datatype Option<+T> = None | Some(value: T)

  /** One table cell; `data` is what the table keeps beside the task handler. */
  datatype Slot<+D> = Slot(active: bool, handler: nat, data: D)

  predicate IsFor<D>(c: Slot<D>, t: nat) {
    c.active && c.handler == t
  }

  /** How many of the first `k` cells are active cells of task `t`. */
  function CountTo<D>(cells: seq<Slot<D>>, t: nat, k: nat): nat
    requires k <= |cells|
  {
    if k == 0 then 0 else CountTo(cells, t, k - 1) + (if IsFor(cells[k - 1], t) then 1 else 0)
  }

  /** How many active cells task `t` occupies. */
  function Count<D>(cells: seq<Slot<D>>, t: nat): nat {
    CountTo(cells, t, |cells|)
  }

  function SizeTo<D>(cells: seq<Slot<D>>, k: nat): nat
    requires k <= |cells|
  {
    if k == 0 then 0 else SizeTo(cells, k - 1) + (if cells[k - 1].active then 1 else 0)
  }

  /** How many cells are active. */
  function Size<D>(cells: seq<Slot<D>>): nat {
    SizeTo(cells, |cells|)
  }

  predicate Holds<D>(cells: seq<Slot<D>>, t: nat) {
    exists i :: 0 <= i < |cells| && IsFor(cells[i], t)
  }

  /** Index of the first inactive cell, or the length when every cell is active. */
  function FirstFree<D>(cells: seq<Slot<D>>): (k: nat)
    ensures k <= |cells|
    ensures k < |cells| ==> !cells[k].active
    ensures forall j :: 0 <= j < k ==> cells[j].active
  {
    FirstFreeFrom(cells, 0)
  }

  function FirstFreeFrom<D>(cells: seq<Slot<D>>, i: nat): (k: nat)
    requires i <= |cells|
    ensures i <= k <= |cells|
    ensures k < |cells| ==> !cells[k].active
    ensures forall j :: i <= j < k ==> cells[j].active
    decreases |cells| - i
  {
    if i == |cells| || !cells[i].active then i else FirstFreeFrom(cells, i + 1)
  }

  /** Index of the first active cell of task `t`, or the length when there is none. */
  function FirstOf<D>(cells: seq<Slot<D>>, t: nat): (k: nat)
    ensures k <= |cells|
    ensures k < |cells| ==> IsFor(cells[k], t)
    ensures forall j :: 0 <= j < k ==> !IsFor(cells[j], t)
  {
    FirstOfFrom(cells, t, 0)
  }

  function FirstOfFrom<D>(cells: seq<Slot<D>>, t: nat, i: nat): (k: nat)
    requires i <= |cells|
    ensures i <= k <= |cells|
    ensures k < |cells| ==> IsFor(cells[k], t)
    ensures forall j :: i <= j < k ==> !IsFor(cells[j], t)
    decreases |cells| - i
  {
    if i == |cells| || IsFor(cells[i], t) then i
    else FirstOfFrom(cells, t, i + 1)
  }

  lemma {:induction false} CountToUpdate<D>(cells: seq<Slot<D>>, i: nat, c: Slot<D>, t: nat, k: nat)
    requires i < |cells| && k <= |cells|
    ensures CountTo(cells[i := c], t, k) + (if i < k && IsFor(cells[i], t) then 1 else 0)
         == CountTo(cells, t, k) + (if i < k && IsFor(c, t) then 1 else 0)
  {
    if k > 0 {
      CountToUpdate(cells, i, c, t, k - 1);
    }
  }

  lemma {:induction false} SizeToUpdate<D>(cells: seq<Slot<D>>, i: nat, c: Slot<D>, k: nat)
    requires i < |cells| && k <= |cells|
    ensures SizeTo(cells[i := c], k) + (if i < k && cells[i].active then 1 else 0)
         == SizeTo(cells, k) + (if i < k && c.active then 1 else 0)
  {
    if k > 0 {
      SizeToUpdate(cells, i, c, k - 1);
    }
  }

  /** Overwriting a cell exchanges that cell's contribution and nothing else. */
  lemma CellUpdate<D>(cells: seq<Slot<D>>, i: nat, c: Slot<D>)
    requires i < |cells|
    ensures forall t :: Count(cells[i := c], t) ==
                        Count(cells, t) - (if IsFor(cells[i], t) then 1 else 0) + (if IsFor(c, t) then 1 else 0)
    ensures Size(cells[i := c]) == Size(cells) - (if cells[i].active then 1 else 0) + (if c.active then 1 else 0)
  {
    forall t ensures Count(cells[i := c], t) ==
                     Count(cells, t) - (if IsFor(cells[i], t) then 1 else 0) + (if IsFor(c, t) then 1 else 0)
    {
      CountToUpdate(cells, i, c, t, |cells|);
    }
    SizeToUpdate(cells, i, c, |cells|);
  }

  lemma {:induction false} CountToHolds<D>(cells: seq<Slot<D>>, t: nat, k: nat)
    requires k <= |cells|
    ensures CountTo(cells, t, k) > 0 <==> exists i :: 0 <= i < k && IsFor(cells[i], t)
  {
    if k > 0 {
      CountToHolds(cells, t, k - 1);
    }
  }

  lemma CountHolds<D>(cells: seq<Slot<D>>, t: nat)
    ensures Count(cells, t) > 0 <==> Holds(cells, t)
  {
    CountToHolds(cells, t, |cells|);
  }

  /** Two different active cells of one task count twice. */
  lemma CountTwice<D>(cells: seq<Slot<D>>, i: nat, j: nat, t: nat)
    requires i < |cells| && j < |cells| && i != j
    requires IsFor(cells[i], t) && IsFor(cells[j], t)
    ensures Count(cells, t) >= 2
  {
    var rest := cells[i := cells[i].(active := false)];
    CellUpdate(cells, i, cells[i].(active := false));
    CountHolds(rest, t);
    assert IsFor(rest[j], t);
  }

  lemma {:induction false} SizeToBounds<D>(cells: seq<Slot<D>>, k: nat)
    requires k <= |cells|
    ensures SizeTo(cells, k) <= k
    ensures SizeTo(cells, k) == 0 <==> forall j :: 0 <= j < k ==> !cells[j].active
  {
    if k > 0 {
      SizeToBounds(cells, k - 1);
    }
  }

  lemma SizeBounds<D>(cells: seq<Slot<D>>)
    ensures Size(cells) <= |cells|
    ensures Size(cells) == 0 <==> forall j :: 0 <= j < |cells| ==> !cells[j].active
  {
    SizeToBounds(cells, |cells|);
  }

  /** The pigeonhole step: active cells of distinct tasks among `m` tasks number at most `m`. */
  lemma {:induction false} DistinctPrefix<D>(cells: seq<Slot<D>>, k: nat, tasks: set<nat>)
    requires k <= |cells|
    requires forall j :: 0 <= j < k ==> cells[j].active && cells[j].handler in tasks
    requires forall i, j :: 0 <= i < j < k ==> cells[i].handler != cells[j].handler
    ensures k <= |tasks|
  {
    if k > 0 {
      DistinctPrefix(cells, k - 1, tasks - {cells[k - 1].handler});
    }
  }

  /** A table whose tasks are distinct and fewer than its cells has a free cell. */
  lemma FreeCell<D>(cells: seq<Slot<D>>, m: nat)
    requires forall t :: Count(cells, t) <= 1
    requires forall j :: 0 <= j < |cells| && cells[j].active ==> cells[j].handler < m
    requires m < |cells|
    ensures FirstFree(cells) < |cells|
  {
    if FirstFree(cells) == |cells| {
      var tasks := set j | 0 <= j < |cells| :: cells[j].handler;
      forall i, j | 0 <= i < j < |cells| ensures cells[i].handler != cells[j].handler {
        if cells[i].handler == cells[j].handler {
          CountTwice(cells, i, j, cells[i].handler);
        }
      }
      DistinctPrefix(cells, |cells|, tasks);
      BoundedSet(tasks, m);
    }
  }

  /** Sets of task numbers below `n` have at most `n` members. */
  lemma {:induction false} BoundedSet(tasks: set<nat>, n: nat)
    requires forall t :: t in tasks ==> t < n
    ensures |tasks| <= n
  {
    if n > 0 {
      BoundedSet(tasks - {n - 1}, n - 1);
      if n - 1 in tasks {
        assert tasks == (tasks - {n - 1}) + {n - 1};
      } else {
        assert tasks - {n - 1} == tasks;
      }
    } else {
      assert tasks == {};
    }
  }
}
