/** The round-robin multi-queue scheduler: two flip-flopping jobsets and the running job.

A job that is woken enters the active jobset. A job that loses the core while still ready
moves to the backed jobset with a fresh quantum. When the active jobset is empty the two
are exchanged.
*/
module Rrmq {
  import opened Slots

  datatype Meta = Meta(handle: nat, priority: nat, quantum: nat)

  datatype JobData = JobData(priority: nat, quantum: nat)
  type Cell = Slot<JobData>
  datatype Jobset = Jobset(num: int, cells: seq<Cell>)

  datatype Sched = Sched(primary: Jobset, secondary: Jobset, primaryActive: bool, current: Option<nat>) {
    function Active(): Jobset { if primaryActive then primary else secondary }
    function Backed(): Jobset { if primaryActive then secondary else primary }

    function WithActive(js: Jobset): Sched {
      if primaryActive then this.(primary := js) else this.(secondary := js)
    }

    function WithBacked(js: Jobset): Sched {
      if primaryActive then this.(secondary := js) else this.(primary := js)
    }

    function Swap(): Sched { this.(primaryActive := !primaryActive) }

    predicate Shaped(size: nat) {
      && size > 0
      && |primary.cells| == size && |secondary.cells| == size
      && (current.Some? ==> current.value < size)
    }

    /** Handler of the running job; the caller supplies idle for the case that there is none. */
    function Running(idle: nat): nat
      requires current.Some? ==> current.value < |Active().cells|
    {
      if current.None? then idle else Active().cells[current.value].handler
    }
  }

  /** Every cell names one of `n` tasks. */
  predicate Named(sc: Sched, n: nat) {
    && (forall i :: 0 <= i < |sc.primary.cells| ==> sc.primary.cells[i].handler < n)
    && (forall i :: 0 <= i < |sc.secondary.cells| ==> sc.secondary.cells[i].handler < n)
  }

  function EmptySched(size: nat): (sc: Sched)
    requires size > 0
    ensures sc.Shaped(size)
  {
    var js := Jobset(0, seq(size, _ => Slot(false, 0, JobData(0, 0))));
    Sched(js, js, true, None)
  }

  /** The cell an insertion uses: the first free one, or cell 0 when there is none. */
  function InsertCell(cells: seq<Cell>): (i: nat)
    requires |cells| > 0
    ensures i < |cells|
    ensures FirstFree(cells) < |cells| ==> i == FirstFree(cells)
  {
    if FirstFree(cells) < |cells| then FirstFree(cells) else 0
  }

  function Insert(js: Jobset, t: nat, m: Meta): Jobset
    requires |js.cells| > 0
  {
    Jobset(js.num + 1, js.cells[InsertCell(js.cells) := Slot(true, t, JobData(m.priority, m.quantum))])
  }

  /** Best of the first `k` cells: highest priority, the earliest cell among equals. */
  function BestTo(cells: seq<Cell>, k: nat): (b: Option<nat>)
    requires k <= |cells|
    ensures b.Some? ==> b.value < k && cells[b.value].active
    ensures b.None? <==> forall j :: 0 <= j < k ==> !cells[j].active
    ensures b.Some? ==> forall j :: 0 <= j < k && cells[j].active ==>
              if j < b.value then cells[j].data.priority < cells[b.value].data.priority
              else cells[j].data.priority <= cells[b.value].data.priority
  {
    if k == 0 then None
    else
      var b := BestTo(cells, k - 1);
      var c := cells[k - 1];
      if !c.active then b
      else if b.None? || c.data.priority > cells[b.value].data.priority then Some(k - 1)
      else b
  }

  function Best(cells: seq<Cell>): Option<nat> {
    BestTo(cells, |cells|)
  }

  /** The running job leaves its cell; when still ready it joins the backed jobset. */
  function Retire(sc: Sched, meta: seq<Meta>, stillReady: bool): (r: Sched)
    requires sc.current.Some? && sc.Shaped(|sc.primary.cells|)
    requires sc.Running(0) < |meta|
    ensures r.Shaped(|sc.primary.cells|) && (Named(sc, |meta|) ==> Named(r, |meta|))
  {
    var i, h := sc.current.value, sc.Running(0);
    var requeued :=
      if stillReady && !Holds(sc.Backed().cells, h) then sc.WithBacked(Insert(sc.Backed(), h, meta[h])) else sc;
    var active := sc.Active();
    requeued.WithActive(Jobset(active.num - 1, active.cells[i := active.cells[i].(active := false)]))
  }

  /** Choice of the next running job. */
  function Choose(sc: Sched): (r: Sched)
    requires sc.Shaped(|sc.primary.cells|)
    ensures r.Shaped(|sc.primary.cells|)
  {
    var sw := if sc.Active().num == 0 then sc.Swap() else sc;
    if sw.Active().num == 0 then sw.(current := None) else sw.(current := Best(sw.Active().cells))
  }

  function ElectSched(sc: Sched, meta: seq<Meta>, stillReady: bool): (r: Sched)
    requires sc.Shaped(|sc.primary.cells|)
    requires sc.current.Some? ==> sc.Running(0) < |meta|
    ensures r.Shaped(|sc.primary.cells|) && (Named(sc, |meta|) ==> Named(r, |meta|))
  {
    Choose(if sc.current.None? then sc else Retire(sc, meta, stillReady))
  }

  // ---- Representation invariant -------------------------------------------------------------

  ghost predicate CellsOk(cells: seq<Cell>, meta: seq<Meta>, tasks: nat) {
    forall i :: 0 <= i < |cells| && cells[i].active ==>
      && cells[i].handler < tasks <= |meta|
      && cells[i].data.priority == meta[cells[i].handler].priority
      && cells[i].data.quantum <= meta[cells[i].handler].quantum
  }

  ghost predicate Counters(sc: Sched, size: nat, meta: seq<Meta>, tasks: nat) {
    && sc.Shaped(size)
    && sc.primary.num == Size(sc.primary.cells) && sc.secondary.num == Size(sc.secondary.cells)
    && CellsOk(sc.primary.cells, meta, tasks) && CellsOk(sc.secondary.cells, meta, tasks)
  }

  /** The representation invariant, for `tasks` user tasks and tables of `size` cells. */
  ghost predicate Tables(sc: Sched, size: nat, meta: seq<Meta>, tasks: nat) {
    Counters(sc, size, meta, tasks) && (sc.current.Some? ==> sc.Active().cells[sc.current.value].active)
  }

  function Copies(sc: Sched, t: nat): nat {
    Count(sc.primary.cells, t) + Count(sc.secondary.cells, t)
  }

  /** The jobs held are exactly the ready ones, once each, beside a running job that just blocked. */
  ghost predicate Conserves(sc: Sched, ready: set<nat>, blocked: Option<nat>) {
    forall t :: Copies(sc, t) == (if t in ready then 1 else 0) + (if blocked == Some(t) then 1 else 0)
  }

  lemma InsertCount(js: Jobset, t: nat, m: Meta)
    requires FirstFree(js.cells) < |js.cells|
    ensures Size(Insert(js, t, m).cells) == Size(js.cells) + 1
    ensures forall u :: Count(Insert(js, t, m).cells, u) == Count(js.cells, u) + (if u == t then 1 else 0)
  {
    CellUpdate(js.cells, InsertCell(js.cells), Slot(true, t, JobData(m.priority, m.quantum)));
  }

  /** An insertion always finds a free cell. */
  lemma InsertFinds(cells: seq<Cell>, meta: seq<Meta>, tasks: nat)
    requires CellsOk(cells, meta, tasks) && tasks < |cells|
    requires forall t :: Count(cells, t) <= 1
    ensures FirstFree(cells) < |cells|
  {
    FreeCell(cells, tasks);
  }

  /** Waking a task adds one job to the active jobset and disturbs nothing else. */
  lemma InsertKeeps(sc: Sched, size: nat, meta: seq<Meta>, tasks: nat, ready: set<nat>, blocked: Option<nat>, t: nat)
    requires Tables(sc, size, meta, tasks) && Conserves(sc, ready, blocked)
    requires blocked.Some? ==> blocked.value !in ready
    requires t < tasks < size && tasks <= |meta|
    requires t !in ready && blocked != Some(t)
    ensures !Holds(sc.Active().cells, t)
    ensures sc.Active().num <= size
    ensures var r := sc.WithActive(Insert(sc.Active(), t, meta[t]));
            && Tables(r, size, meta, tasks) && Conserves(r, ready + {t}, blocked)
            && r.current == sc.current && r.Running(0) == sc.Running(0)
            && r.Active().num == sc.Active().num + 1 && r.Backed() == sc.Backed()
            && (sc.current.Some? ==> r.Active().cells[sc.current.value] == sc.Active().cells[sc.current.value])
  {
    var cells := sc.Active().cells;
    CountHolds(cells, t);
    SizeBounds(cells);
    forall u ensures Count(cells, u) <= 1 {
      assert Copies(sc, u) <= 1;
    }
    InsertFinds(cells, meta, tasks);
    InsertCount(sc.Active(), t, meta[t]);
  }

  // ---- Election ------------------------------------------------------------------------------

  /** How the running job stands with respect to the ready jobs when an election starts. */
  ghost predicate RunningAccounted(sc: Sched, size: nat, ready: set<nat>, blocked: Option<nat>)
    requires sc.Shaped(size)
  {
    if sc.current.None? then blocked == None
    else if sc.Running(0) in ready then blocked == None
    else blocked == Some(sc.Running(0))
  }

  lemma RetireKeeps(sc: Sched, size: nat, meta: seq<Meta>, tasks: nat, ready: set<nat>, blocked: Option<nat>)
    requires Tables(sc, size, meta, tasks) && Conserves(sc, ready, blocked)
    requires sc.current.Some? && tasks < size && tasks <= |meta|
    requires RunningAccounted(sc, size, ready, blocked)
    ensures sc.Running(0) < tasks && sc.Backed().num <= size
    ensures var r := Retire(sc, meta, sc.Running(0) in ready);
            && Counters(r, size, meta, tasks) && Conserves(r, ready, None)
            && r.Active().num == sc.Active().num - 1
            && r.Backed().num == sc.Backed().num + (if sc.Running(0) in ready then 1 else 0)
  {
    var i, h := sc.current.value, sc.Running(0);
    var a, b := sc.Active(), sc.Backed();
    SizeBounds(b.cells);
    CountHolds(a.cells, h);
    CountHolds(b.cells, h);
    assert IsFor(a.cells[i], h);
    assert Copies(sc, h) == 1;
    if h in ready {
      forall u ensures Count(b.cells, u) <= 1 {
        assert Copies(sc, u) <= 1;
      }
      InsertFinds(b.cells, meta, tasks);
      InsertCount(b, h, meta[h]);
    }
    CellUpdate(a.cells, i, a.cells[i].(active := false));
  }

  /** Priority order of an election: the chosen cell beats every other active cell. */
  ghost predicate IsBest(cells: seq<Cell>, b: nat) {
    && b < |cells| && cells[b].active
    && forall j :: 0 <= j < |cells| && cells[j].active ==>
         if j < b then cells[j].data.priority < cells[b].data.priority
         else cells[j].data.priority <= cells[b].data.priority
  }

  lemma ChooseKeeps(sc: Sched, size: nat, meta: seq<Meta>, tasks: nat, ready: set<nat>)
    requires Counters(sc, size, meta, tasks) && Conserves(sc, ready, None)
    ensures var r := Choose(sc);
            && Tables(r, size, meta, tasks) && Conserves(r, ready, None)
            && (r.current == None <==> ready == {})
            && (r.current.Some? ==> r.Running(0) in ready && IsBest(r.Active().cells, r.current.value))
            && r == (if sc.Active().num == 0 then sc.Swap() else sc).(current := r.current)
  {
    var r := Choose(sc);
    SizeBounds(sc.primary.cells);
    SizeBounds(sc.secondary.cells);
    if r.current.Some? {
      var h := r.Running(0);
      CountHolds(r.Active().cells, h);
      assert IsFor(r.Active().cells[r.current.value], h);
      assert Copies(sc, h) == if h in ready then 1 else 0;
    } else {
      forall t ensures t !in ready {
        CountHolds(sc.primary.cells, t);
        CountHolds(sc.secondary.cells, t);
        assert Copies(sc, t) == if t in ready then 1 else 0;
      }
    }
  }

  /** Election neither drops nor duplicates a job, picks the best ready job of the jobset it
      serves, and falls back to idle exactly when no job is ready. */
  lemma ElectKeeps(sc: Sched, size: nat, meta: seq<Meta>, tasks: nat, ready: set<nat>, blocked: Option<nat>,
                   stillReady: bool)
    requires Tables(sc, size, meta, tasks) && Conserves(sc, ready, blocked)
    requires tasks < size && tasks <= |meta|
    requires RunningAccounted(sc, size, ready, blocked)
    requires sc.current.Some? ==> (stillReady <==> sc.Running(0) in ready)
    ensures sc.current.Some? ==> sc.Running(0) < tasks && sc.Backed().num <= size
    ensures var r := ElectSched(sc, meta, stillReady);
            && Tables(r, size, meta, tasks) && Conserves(r, ready, None)
            && (r.current == None <==> ready == {})
            && (r.current.Some? ==> r.Running(0) in ready && IsBest(r.Active().cells, r.current.value))
  {
    if sc.current.None? {
      ChooseKeeps(sc, size, meta, tasks, ready);
    } else {
      RetireKeeps(sc, size, meta, tasks, ready, blocked);
      ChooseKeeps(Retire(sc, meta, stillReady), size, meta, tasks, ready);
    }
  }

  // ---- Quantum -------------------------------------------------------------------------------

  ghost predicate Fresh(cells: seq<Cell>, skip: Option<nat>) {
    forall i :: 0 <= i < |cells| && cells[i].active && skip != Some(i) ==> cells[i].data.quantum >= 1
  }

  /** Every queued job has quantum left. */
  ghost predicate Quanta(sc: Sched) {
    Fresh(sc.Active().cells, None) && Fresh(sc.Backed().cells, None)
  }

  /** Every queued job except possibly the running one has quantum left. */
  ghost predicate QuantaButRunner(sc: Sched) {
    Fresh(sc.Active().cells, sc.current) && Fresh(sc.Backed().cells, None)
  }

  lemma InsertQuanta(js: Jobset, t: nat, m: Meta)
    requires |js.cells| > 0 && Fresh(js.cells, None) && m.quantum >= 1
    ensures Fresh(Insert(js, t, m).cells, None)
  {
  }

  lemma ElectQuanta(sc: Sched, size: nat, meta: seq<Meta>, stillReady: bool)
    requires sc.Shaped(size) && QuantaButRunner(sc)
    requires sc.current.Some? ==> sc.Running(0) < |meta| && meta[sc.Running(0)].quantum >= 1
    ensures Quanta(ElectSched(sc, meta, stillReady))
  {
    if sc.current.Some? {
      InsertQuanta(sc.Backed(), sc.Running(0), meta[sc.Running(0)]);
      var r := Retire(sc, meta, stillReady);
      assert Quanta(r);
    }
  }
}
