/** The graph of pending IPCs and the kernel's deadlock detector.

`pending[d][s]` is the length of the message that task `s` has left for task `d`, zero
when there is none. A sender is blocked until its message is read, so a cycle of pending
messages is a deadlock.
*/
module IpcGraph {
  import opened Slots

  /** Every row has at least one cell per task. */
  predicate Square(pending: seq<seq<nat>>) {
    forall d :: 0 <= d < |pending| ==> |pending[d]| >= |pending|
  }

  /** Task `x` has a message pending at task `y`. */
  predicate Sends(pending: seq<seq<nat>>, x: nat, y: nat)
    requires Square(pending)
  {
    x < |pending| && y < |pending| && pending[y][x] > 0
  }

  /** The intermediate tasks of a chain of pending messages, last one outermost. */
  datatype Trail = Direct | Via(before: Trail, mid: nat)

  function Length(trail: Trail): nat {
    match trail
    case Direct => 1
    case Via(before, _) => Length(before) + 1
  }

  ghost predicate Walk(pending: seq<seq<nat>>, a: nat, trail: Trail, b: nat)
    requires Square(pending)
  {
    match trail
    case Direct => Sends(pending, a, b)
    case Via(before, mid) => Walk(pending, a, before, mid) && Sends(pending, mid, b)
  }

  /** A non-empty chain of pending messages leads from `a` to `b`. */
  ghost predicate Reaches(pending: seq<seq<nat>>, a: nat, b: nat)
    requires Square(pending)
  {
    exists trail :: Walk(pending, a, trail, b)
  }

  ghost predicate Acyclic(pending: seq<seq<nat>>)
    requires Square(pending)
  {
    forall t :: !Reaches(pending, t, t)
  }

  /** Some cycle of pending messages contains `b` or leads to it. */
  ghost predicate CycleInto(pending: seq<seq<nat>>, b: nat)
    requires Square(pending)
  {
    exists t :: Reaches(pending, t, t) && (t == b || Reaches(pending, t, b))
  }

  // ---- Reachability -----------------------------------------------------------------

  function Join(first: Trail, m: nat, second: Trail): Trail {
    match second
    case Direct => Via(first, m)
    case Via(before, mid) => Via(Join(first, m, before), mid)
  }

  lemma {:induction false} JoinWalks(pending: seq<seq<nat>>, a: nat, first: Trail, m: nat, second: Trail, b: nat)
    requires Square(pending)
    requires Walk(pending, a, first, m) && Walk(pending, m, second, b)
    ensures Walk(pending, a, Join(first, m, second), b)
    ensures Length(Join(first, m, second)) == Length(first) + Length(second)
  {
    match second
    case Direct =>
    case Via(before, mid) => JoinWalks(pending, a, first, m, before, mid);
  }

  lemma ReachesTrans(pending: seq<seq<nat>>, a: nat, m: nat, b: nat)
    requires Square(pending)
    requires Reaches(pending, a, m) && Reaches(pending, m, b)
    ensures Reaches(pending, a, b)
  {
    var first :| Walk(pending, a, first, m);
    var second :| Walk(pending, m, second, b);
    JoinWalks(pending, a, first, m, second, b);
  }

  lemma ReachesStep(pending: seq<seq<nat>>, a: nat, m: nat, b: nat)
    requires Square(pending)
    requires Sends(pending, m, b)
    requires a == m || Reaches(pending, a, m)
    ensures Reaches(pending, a, b)
  {
    assert Walk(pending, m, Direct, b);
    if a != m {
      ReachesTrans(pending, a, m, b);
    }
  }

  lemma ReachesLast(pending: seq<seq<nat>>, a: nat, b: nat) returns (m: nat)
    requires Square(pending)
    requires Reaches(pending, a, b)
    ensures m < |pending| && Sends(pending, m, b)
    ensures a == m || Reaches(pending, a, m)
  {
    var trail :| Walk(pending, a, trail, b);
    match trail
    case Direct => m := a;
    case Via(before, mid) =>
      assert Walk(pending, a, before, mid);
      m := mid;
  }

  lemma {:induction false} WalkBounds(pending: seq<seq<nat>>, a: nat, trail: Trail, b: nat)
    requires Square(pending)
    requires Walk(pending, a, trail, b)
    ensures a < |pending| && b < |pending|
  {
    match trail
    case Direct =>
    case Via(before, mid) => WalkBounds(pending, a, before, mid);
  }

  /** Following a cycle again and again gives a walk of any length. */
  lemma {:induction false} LongWalk(pending: seq<seq<nat>>, t: nat, k: nat) returns (trail: Trail)
    requires Square(pending)
    requires Reaches(pending, t, t)
    ensures Walk(pending, t, trail, t) && Length(trail) > k
  {
    var loop :| Walk(pending, t, loop, t);
    if k == 0 {
      trail := loop;
    } else {
      var before := LongWalk(pending, t, k - 1);
      trail := Join(before, t, loop);
      JoinWalks(pending, t, before, t, loop, t);
    }
  }

  // ---- Ancestors: the tasks from which a chain leads to a given task -------------------

  ghost function Ancestors(pending: seq<seq<nat>>, b: nat): set<nat>
    requires Square(pending)
  {
    set a | 0 <= a < |pending| && Reaches(pending, a, b)
  }

  lemma SubsetSize(a: set<nat>, b: set<nat>)
    requires a <= b
    ensures |a| <= |b|
  {
    assert b == a + (b - a);
  }

  lemma AncestorsGrow(pending: seq<seq<nat>>, m: nat, b: nat)
    requires Square(pending)
    requires Sends(pending, m, b) && !Reaches(pending, m, m)
    ensures |Ancestors(pending, b)| >= |Ancestors(pending, m)| + 1
  {
    ReachesStep(pending, m, m, b);
    forall a | a in Ancestors(pending, m) ensures a in Ancestors(pending, b) {
      ReachesStep(pending, a, m, b);
    }
    SubsetSize(Ancestors(pending, m) + {m}, Ancestors(pending, b));
  }

  lemma AncestorsBound(pending: seq<seq<nat>>, b: nat)
    requires Square(pending)
    requires b < |pending| && !Reaches(pending, b, b)
    ensures |Ancestors(pending, b)| < |pending|
  {
    BoundedSet(Ancestors(pending, b) + {b}, |pending|);
  }

  // ---- Adding and removing one message -----------------------------------------------

  /** A walk through the new message splits into walks that avoid it. */
  lemma {:induction false} WalkWithNewEdge(pending: seq<seq<nat>>, next: seq<seq<nat>>, src: nat, dst: nat,
                                           a: nat, trail: Trail, b: nat)
    requires Square(pending) && Square(next) && |next| == |pending|
    requires src < |pending| && dst < |pending|
    requires forall x, y :: Sends(next, x, y) ==> Sends(pending, x, y) || (x == src && y == dst)
    requires Walk(next, a, trail, b)
    ensures Reaches(pending, a, b)
         || ((a == src || Reaches(pending, a, src)) && (b == dst || Reaches(pending, dst, b)))
  {
    match trail
    case Direct =>
      if Sends(pending, a, b) {
        ReachesStep(pending, a, a, b);
      }
    case Via(before, mid) =>
      WalkWithNewEdge(pending, next, src, dst, a, before, mid);
      if Sends(pending, mid, b) {
        if Reaches(pending, a, mid) {
          ReachesStep(pending, a, mid, b);
        } else {
          ReachesStep(pending, dst, mid, b);
        }
      }
  }

  /** A new message keeps the graph acyclic exactly when it is no self-send and no chain leads back. */
  lemma NewEdgeAcyclic(pending: seq<seq<nat>>, next: seq<seq<nat>>, src: nat, dst: nat)
    requires Square(pending) && Square(next) && |next| == |pending|
    requires src < |pending| && dst < |pending|
    requires Acyclic(pending)
    requires forall x, y :: Sends(next, x, y) <==> Sends(pending, x, y) || (x == src && y == dst)
    ensures Acyclic(next) <==> src != dst && !Reaches(pending, dst, src)
  {
    if src != dst && !Reaches(pending, dst, src) {
      forall t ensures !Reaches(next, t, t) {
        if Reaches(next, t, t) {
          var trail :| Walk(next, t, trail, t);
          WalkWithNewEdge(pending, next, src, dst, t, trail, t);
          assert (t == src || Reaches(pending, t, src)) && (t == dst || Reaches(pending, dst, t));
          if t != src && t != dst {
            ReachesTrans(pending, dst, t, src);
          }
        }
      }
    } else {
      ReachesStep(next, src, src, dst);
      if src != dst {
        ReachesMono(pending, next, dst, src);
        ReachesTrans(next, src, dst, src);
      }
    }
  }

  lemma {:induction false} WalkMono(pending: seq<seq<nat>>, next: seq<seq<nat>>, a: nat, trail: Trail, b: nat)
    requires Square(pending) && Square(next)
    requires forall x, y :: Sends(pending, x, y) ==> Sends(next, x, y)
    requires Walk(pending, a, trail, b)
    ensures Walk(next, a, trail, b)
  {
    match trail
    case Direct =>
    case Via(before, mid) => WalkMono(pending, next, a, before, mid);
  }

  lemma ReachesMono(pending: seq<seq<nat>>, next: seq<seq<nat>>, a: nat, b: nat)
    requires Square(pending) && Square(next)
    requires forall x, y :: Sends(pending, x, y) ==> Sends(next, x, y)
    requires Reaches(pending, a, b)
    ensures Reaches(next, a, b)
  {
    var trail :| Walk(pending, a, trail, b);
    WalkMono(pending, next, a, trail, b);
  }

  /** Reading a message removes an edge, which cannot create a cycle. */
  lemma FewerEdgesAcyclic(pending: seq<seq<nat>>, next: seq<seq<nat>>)
    requires Square(pending) && Square(next)
    requires forall x, y :: Sends(next, x, y) ==> Sends(pending, x, y)
    requires Acyclic(pending)
    ensures Acyclic(next)
  {
    forall t ensures !Reaches(next, t, t) {
      if Reaches(next, t, t) {
        ReachesMono(next, pending, t, t);
      }
    }
  }

  // ---- The detector --------------------------------------------------------------------

  datatype Verdict = Deadlock | Safe | Overflow

  /** Depth-first search of the senders of `x`, from cell `idx` on, with `depth` more frames available. */
  function Search(pending: seq<seq<nat>>, target: nat, x: nat, idx: nat, depth: nat): Verdict
    requires Square(pending) && x < |pending|
    decreases depth, |pending| - idx
  {
    if idx >= |pending| then Safe
    else if pending[x][idx] == 0 then Search(pending, target, x, idx + 1, depth)
    else if idx == target then Deadlock
    else if depth == 0 then Overflow
    else match Search(pending, target, idx, 0, depth - 1)
      case Safe => Search(pending, target, x, idx + 1, depth)
      case v => v
  }

  /** The detector as called by the send gate: `frames` stack frames, starting at the sender. */
  function Detect(pending: seq<seq<nat>>, frames: nat, current: nat, target: nat): Verdict
    requires Square(pending) && current < |pending| && 0 < frames
  {
    Search(pending, target, current, 0, frames - 1)
  }

  lemma {:induction false} SearchDeadlock(pending: seq<seq<nat>>, target: nat, x: nat, idx: nat, depth: nat)
    requires Square(pending) && x < |pending|
    requires Search(pending, target, x, idx, depth) == Deadlock
    ensures Reaches(pending, target, x)
    decreases depth, |pending| - idx
  {
    if pending[x][idx] == 0 {
      SearchDeadlock(pending, target, x, idx + 1, depth);
    } else if idx == target {
      ReachesStep(pending, target, target, x);
    } else if Search(pending, target, idx, 0, depth - 1) == Safe {
      SearchDeadlock(pending, target, x, idx + 1, depth);
    } else {
      SearchDeadlock(pending, target, idx, 0, depth - 1);
      ReachesStep(pending, target, idx, x);
    }
  }

  /** A completed search has seen every sender, and every chain into `x` is short. */
  lemma {:induction false} SearchSafe(pending: seq<seq<nat>>, target: nat, x: nat, idx: nat, depth: nat, m: nat)
    requires Square(pending) && x < |pending|
    requires Search(pending, target, x, idx, depth) == Safe
    requires idx <= m && Sends(pending, m, x)
    ensures m != target && depth > 0 && Search(pending, target, m, 0, depth - 1) == Safe
    decreases |pending| - idx
  {
    if idx < m {
      SearchSafe(pending, target, x, idx + 1, depth, m);
    }
  }

  lemma {:induction false} SafeWalks(pending: seq<seq<nat>>, target: nat, x: nat, depth: nat, a: nat, trail: Trail)
    requires Square(pending) && x < |pending|
    requires Search(pending, target, x, 0, depth) == Safe
    requires Walk(pending, a, trail, x)
    ensures a != target && Length(trail) <= depth
    decreases trail
  {
    match trail
    case Direct => SearchSafe(pending, target, x, 0, depth, a);
    case Via(before, mid) =>
      WalkBounds(pending, a, before, mid);
      SearchSafe(pending, target, x, 0, depth, mid);
      SafeWalks(pending, target, mid, depth - 1, a, before);
  }

  /** The search runs out of frames only below more than `depth` distinct ancestors. */
  lemma {:induction false} SearchOverflow(pending: seq<seq<nat>>, target: nat, x: nat, idx: nat, depth: nat)
    requires Square(pending) && x < |pending|
    requires Search(pending, target, x, idx, depth) == Overflow
    requires !CycleInto(pending, x)
    ensures |Ancestors(pending, x)| > depth
    decreases depth, |pending| - idx
  {
    if pending[x][idx] == 0 {
      SearchOverflow(pending, target, x, idx + 1, depth);
    } else {
      ReachesStep(pending, idx, idx, x);
      AncestorsGrow(pending, idx, x);
      if depth > 0 {
        if Search(pending, target, idx, 0, depth - 1) == Safe {
          SearchOverflow(pending, target, x, idx + 1, depth);
        } else {
          if CycleInto(pending, idx) {
            var t :| Reaches(pending, t, t) && (t == idx || Reaches(pending, t, idx));
            ReachesStep(pending, t, idx, x);
          }
          SearchOverflow(pending, target, idx, 0, depth - 1);
        }
      }
    }
  }

  /** The detector on an arbitrary graph: what each verdict means. */
  lemma DetectVerdicts(pending: seq<seq<nat>>, frames: nat, current: nat, target: nat)
    requires Square(pending) && current < |pending| <= frames
    ensures Detect(pending, frames, current, target) == Deadlock ==> Reaches(pending, target, current)
    ensures Detect(pending, frames, current, target) == Overflow ==> CycleInto(pending, current)
    ensures Detect(pending, frames, current, target) == Safe <==>
            !Reaches(pending, target, current) && !CycleInto(pending, current)
  {
    var v := Detect(pending, frames, current, target);
    if v == Deadlock {
      SearchDeadlock(pending, target, current, 0, frames - 1);
    } else if v == Overflow {
      if !CycleInto(pending, current) {
        SearchOverflow(pending, target, current, 0, frames - 1);
        AncestorsBound(pending, current);
      }
    } else {
      if Reaches(pending, target, current) {
        var trail :| Walk(pending, target, trail, current);
        SafeWalks(pending, target, current, frames - 1, target, trail);
      }
      if CycleInto(pending, current) {
        var t :| Reaches(pending, t, t) && (t == current || Reaches(pending, t, current));
        var loop := LongWalk(pending, t, frames);
        if t == current {
          SafeWalks(pending, target, current, frames - 1, t, loop);
        } else {
          var rest :| Walk(pending, t, rest, current);
          JoinWalks(pending, t, loop, t, rest, current);
          SafeWalks(pending, target, current, frames - 1, t, Join(loop, t, rest));
        }
      }
    }
  }

  /** On an acyclic graph the detector never overflows its stack and is exact. */
  lemma DetectExact(pending: seq<seq<nat>>, frames: nat, current: nat, target: nat)
    requires Square(pending) && current < |pending| <= frames
    requires Acyclic(pending)
    ensures Detect(pending, frames, current, target) ==
            if Reaches(pending, target, current) then Deadlock else Safe
  {
    DetectVerdicts(pending, frames, current, target);
  }

  // ---- The iterative implementation ------------------------------------------------------

  datatype Frame = Frame(peer: nat, idx: nat)

  /** First cell at or after `idx` of the message list of `owner` that holds a message. */
  method IpcIterate(pending: seq<seq<nat>>, owner: nat, idx: nat) returns (found: bool, peer: nat)
    requires Square(pending) && owner < |pending|
    ensures found ==> idx <= peer < |pending| && pending[owner][peer] > 0
    ensures forall j :: idx <= j < |pending| && (found ==> j < peer) ==> pending[owner][j] == 0
  {
    found, peer := false, idx;
    while peer < |pending|
      invariant idx <= peer
      invariant forall j :: idx <= j < peer && j < |pending| ==> pending[owner][j] == 0
    {
      if pending[owner][peer] > 0 {
        found := true;
        return;
      }
      peer := peer + 1;
    }
  }

  lemma {:induction false} SearchSkip(pending: seq<seq<nat>>, target: nat, x: nat, idx: nat, end: nat, depth: nat)
    requires Square(pending) && x < |pending|
    requires idx <= end && forall j :: idx <= j < end && j < |pending| ==> pending[x][j] == 0
    ensures Search(pending, target, x, idx, depth) == Search(pending, target, x, end, depth)
    ensures Work(pending, x, idx, depth) == Work(pending, x, end, depth)
    decreases end - idx
  {
    if idx < end {
      SearchSkip(pending, target, x, idx + 1, end, depth);
    }
  }

  /** Loop iterations left for a frame: the termination measure of the search. */
  ghost function Work(pending: seq<seq<nat>>, x: nat, idx: nat, depth: nat): (w: nat)
    requires Square(pending) && x < |pending|
    ensures w > 0
    decreases depth, |pending| - idx
  {
    if idx >= |pending| then 1
    else if pending[x][idx] == 0 then Work(pending, x, idx + 1, depth)
    else 1 + Work(pending, x, idx + 1, depth) + (if depth == 0 then 0 else Work(pending, idx, 0, depth - 1))
  }

  ghost predicate FramesOk(pending: seq<seq<nat>>, stack: seq<Frame>) {
    forall i :: 0 <= i < |stack| ==> stack[i].peer < |pending|
  }

  /** Verdict of the search once the frames of `stack` have all been finished, innermost first. */
  ghost function Resume(pending: seq<seq<nat>>, target: nat, stack: seq<Frame>, frames: nat): Verdict
    requires Square(pending) && FramesOk(pending, stack) && |stack| <= frames
  {
    if stack == [] then Safe
    else
      var top := stack[|stack| - 1];
      match Search(pending, target, top.peer, top.idx, frames - |stack|)
      case Safe => Resume(pending, target, stack[..|stack| - 1], frames)
      case v => v
  }

  ghost function StackWork(pending: seq<seq<nat>>, stack: seq<Frame>, frames: nat): nat
    requires Square(pending) && FramesOk(pending, stack) && |stack| <= frames
  {
    if stack == [] then 0
    else
      var top := stack[|stack| - 1];
      Work(pending, top.peer, top.idx, frames - |stack|) + StackWork(pending, stack[..|stack| - 1], frames)
  }

  /** One iteration that finds a sender other than the target and still has a frame for it. */
  lemma PushStep(pending: seq<seq<nat>>, target: nat, stack: seq<Frame>, frames: nat, peer: nat)
    requires Square(pending) && FramesOk(pending, stack) && 0 < |stack| < frames
    requires var top := stack[|stack| - 1];
             top.idx <= peer < |pending| && pending[top.peer][peer] > 0 && peer != target &&
             forall j :: top.idx <= j < peer ==> pending[top.peer][j] == 0
    ensures var m := |stack| - 1;
            var next := stack[m := Frame(stack[m].peer, peer + 1)] + [Frame(peer, 0)];
            FramesOk(pending, next) &&
            Resume(pending, target, next, frames) == Resume(pending, target, stack, frames) &&
            StackWork(pending, next, frames) < StackWork(pending, stack, frames)
  {
    var m := |stack| - 1;
    var top := stack[m];
    var depth := frames - |stack|;
    var mid := stack[m := Frame(top.peer, peer + 1)];
    var next := mid + [Frame(peer, 0)];
    SearchSkip(pending, target, top.peer, top.idx, peer, depth);
    assert next[..|stack|] == mid && mid[..m] == stack[..m];
    assert next[|stack|] == Frame(peer, 0) && mid[m] == Frame(top.peer, peer + 1);
    assert forall i :: 0 <= i < |mid| ==> mid[i].peer == stack[i].peer;
  }

  /** One iteration that finds the target, or finds another sender but has no frame left. */
  lemma HitStep(pending: seq<seq<nat>>, target: nat, stack: seq<Frame>, frames: nat, peer: nat)
    requires Square(pending) && FramesOk(pending, stack) && 0 < |stack| <= frames
    requires var top := stack[|stack| - 1];
             top.idx <= peer < |pending| && pending[top.peer][peer] > 0 &&
             forall j :: top.idx <= j < peer ==> pending[top.peer][j] == 0
    ensures peer == target ==> Resume(pending, target, stack, frames) == Deadlock
    ensures peer != target && |stack| == frames ==> Resume(pending, target, stack, frames) == Overflow
  {
    var top := stack[|stack| - 1];
    SearchSkip(pending, target, top.peer, top.idx, peer, frames - |stack|);
  }

  /** One iteration that finds no further sender. */
  lemma PopStep(pending: seq<seq<nat>>, target: nat, stack: seq<Frame>, frames: nat)
    requires Square(pending) && FramesOk(pending, stack) && 0 < |stack| <= frames
    requires var top := stack[|stack| - 1];
             forall j :: top.idx <= j < |pending| ==> pending[top.peer][j] == 0
    ensures var rest := stack[..|stack| - 1];
            FramesOk(pending, rest) &&
            Resume(pending, target, rest, frames) == Resume(pending, target, stack, frames) &&
            StackWork(pending, rest, frames) < StackWork(pending, stack, frames)
  {
    var top := stack[|stack| - 1];
    SearchSkip(pending, target, top.peer, top.idx,
               if top.idx <= |pending| then |pending| else top.idx, frames - |stack|);
  }

  /** Deadlock detection with an explicit stack of at most `frames` frames.
      The loop computes the recursive search, on every graph. */
  method IpcGeneratesDeadlock(pending: seq<seq<nat>>, frames: nat, current: nat, target: nat)
    returns (verdict: Verdict)
    requires Square(pending) && current < |pending| && 0 < frames
    ensures verdict == Detect(pending, frames, current, target)
  {
    var stack := new Frame[frames](_ => Frame(0, 0));
    var stackTop := 0;
    stack[0] := Frame(current, 0);
    assert stack[..0] == [] && stack[..1][0] == Frame(current, 0) && stack[..1][..0] == [];
    hide Search, Work, Detect;
    while stackTop >= 0
      invariant -1 <= stackTop < frames
      invariant FramesOk(pending, stack[..stackTop + 1])
      invariant Resume(pending, target, stack[..stackTop + 1], frames) == Detect(pending, frames, current, target)
      decreases StackWork(pending, stack[..stackTop + 1], frames)
    {
      ghost var was := stack[..stackTop + 1];
      var frame := stack[stackTop];
      assert frame == was[stackTop] && was[..stackTop] == stack[..stackTop];
      var found, peer := IpcIterate(pending, frame.peer, frame.idx);
      if found {
        HitStep(pending, target, was, frames, peer);
        if peer == target {
          return Deadlock;
        }
        if stackTop + 1 >= frames {
          return Overflow;
        }
        PushStep(pending, target, was, frames, peer);
        stack[stackTop] := Frame(frame.peer, peer + 1);
        stackTop := stackTop + 1;
        stack[stackTop] := Frame(peer, 0);
        assert stack[..stackTop + 1] == was[stackTop - 1 := Frame(frame.peer, peer + 1)] + [Frame(peer, 0)];
      } else {
        PopStep(pending, target, was, frames);
        stackTop := stackTop - 1;
      }
    }
    assert stack[..0] == [];
    verdict := Safe;
  }
}
