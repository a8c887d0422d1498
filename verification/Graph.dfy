/** Paths along the parent links of a task graph. */
module Graph {
  import opened Prelude

  /** `path` walks from its first task to its last, one parent link at a time. */
  ghost predicate IsPath(links: seq<Link>, path: seq<TaskId>, from: TaskId, to: TaskId) {
    && |path| > 0
    && path[0] == from
    && path[|path| - 1] == to
    && forall i :: 0 <= i < |path| - 1 ==> Link(path[i + 1], path[i]) in links
  }

  /** `ancestor` is `task` itself or one of its transitive parents. */
  ghost predicate Reaches(links: seq<Link>, task: TaskId, ancestor: TaskId) {
    exists path :: IsPath(links, path, task, ancestor)
  }

  /** Some walk of at least one link leads from `task` back to itself. */
  ghost predicate OnCycle(links: seq<Link>, task: TaskId) {
    exists p :: Link(p, task) in links && Reaches(links, p, task)
  }

  ghost predicate NoDanglingAbove<R>(tasks: map<TaskId, R>, links: seq<Link>, root: TaskId) {
    forall x :: Reaches(links, root, x) ==> x in tasks
  }

  ghost predicate AcyclicAbove(links: seq<Link>, root: TaskId) {
    forall x :: Reaches(links, root, x) ==> !OnCycle(links, x)
  }

  /** Every parent of a member is a member. */
  ghost predicate ParentClosed(links: seq<Link>, s: set<TaskId>) {
    forall p, c :: Link(p, c) in links && c in s ==> p in s
  }

  lemma ReachesSelf(links: seq<Link>, x: TaskId)
    ensures Reaches(links, x, x)
  {
    assert IsPath(links, [x], x, x);
  }

  lemma ReachesParent(links: seq<Link>, x: TaskId, y: TaskId, p: TaskId)
    requires Reaches(links, x, y) && Link(p, y) in links
    ensures Reaches(links, x, p)
  {
    var path :| IsPath(links, path, x, y);
    assert IsPath(links, path + [p], x, p);
  }

  lemma ReachesFromChild(links: seq<Link>, x: TaskId, p: TaskId, y: TaskId)
    requires Link(p, x) in links && Reaches(links, p, y)
    ensures Reaches(links, x, y)
  {
    var path :| IsPath(links, path, p, y);
    assert IsPath(links, [x] + path, x, y);
  }

  /** A parent-closed set holding the start of a walk holds all of it. */
  lemma {:induction false} ClosedHoldsPath(links: seq<Link>, s: set<TaskId>, path: seq<TaskId>, from: TaskId, to: TaskId)
    requires ParentClosed(links, s) && from in s && IsPath(links, path, from, to)
    ensures to in s
  {
    if |path| > 1 {
      assert Link(path[1], path[0]) in links;
      ClosedHoldsPath(links, s, path[1..], path[1], to);
    }
  }

  lemma ClosedHoldsReachable(links: seq<Link>, s: set<TaskId>, from: TaskId, to: TaskId)
    requires ParentClosed(links, s) && from in s && Reaches(links, from, to)
    ensures to in s
  {
    var path :| IsPath(links, path, from, to);
    ClosedHoldsPath(links, s, path, from, to);
  }

  /** `order` lists every parent of a task before the task itself. */
  ghost predicate Topological(links: seq<Link>, order: seq<TaskId>) {
    forall k, p :: 0 <= k < |order| && Link(p, order[k]) in links ==> p in order[..k]
  }

  lemma TopologicalPrefixClosed(links: seq<Link>, order: seq<TaskId>, k: nat)
    requires Topological(links, order) && k <= |order|
    ensures ParentClosed(links, set x | x in order[..k])
  {
    forall p, c | Link(p, c) in links && c in order[..k] ensures p in order[..k] {
      var i :| 0 <= i < k && order[..k][i] == c;
      assert order[i] == c;
      assert p in order[..i];
      assert order[..i] <= order[..k];
    }
  }

  /** A task that a topological order lists cannot sit on a cycle. */
  lemma TopologicalIsAcyclic(links: seq<Link>, order: seq<TaskId>, x: TaskId)
    requires Topological(links, order) && x in order
    ensures !OnCycle(links, x)
  {
    var k := FirstIndex(order, x);
    if OnCycle(links, x) {
      var p :| Link(p, x) in links && Reaches(links, p, x);
      TopologicalPrefixClosed(links, order, k);
      assert p in order[..k];
      ClosedHoldsReachable(links, (set y | y in order[..k]), p, x);
      assert false;
    }
  }

  ghost function FirstIndex(s: seq<TaskId>, x: TaskId): (k: nat)
    requires x in s
    ensures k < |s| && s[k] == x && x !in s[..k]
  {
    if s[0] == x then 0 else
      var k := FirstIndex(s[1..], x) + 1;
      assert s[..k] == [s[0]] + s[1..][..k - 1];
      k
  }
}

/** The ancestor searches of the edge: the three-colour depth-first search of
    terminal convergence, and the queue and stack walks of the specialist lanes. */
module AncestorSearch {
  import opened Prelude
  import opened Graph

  datatype ChainError =
    | MissingRoot
    | MissingParent(parent: TaskId)
    | CyclicLink(parent: TaskId, child: TaskId)

  /** A task absent from the colour map is white. */
  datatype Color = Gray | Black

  datatype Frame = Frame(child: TaskId, rows: seq<TaskId>, index: nat)

  ghost predicate OnStack(stack: seq<Frame>, x: TaskId) {
    exists i :: 0 <= i < |stack| && stack[i].child == x
  }

  /** The frames are the distinct tasks of one path of parent links. */
  ghost predicate Chain(links: seq<Link>, stack: seq<Frame>) {
    && (forall i :: 0 <= i < |stack| ==>
          stack[i].rows == ParentRows(links, stack[i].child) && stack[i].index <= |stack[i].rows|)
    && (forall i, j :: 0 <= i < j < |stack| ==> stack[i].child != stack[j].child)
    && (forall i :: 0 <= i < |stack| - 1 ==> Explores(stack[i], stack[i + 1].child))
  }

  ghost predicate Explores(frame: Frame, parent: TaskId) {
    0 < frame.index <= |frame.rows| && frame.rows[frame.index - 1] == parent
  }

  /** The rows a frame has passed, but for the one the next frame explores, are finished. */
  ghost predicate Passed(frame: Frame, isTop: bool, finished: seq<TaskId>) {
    forall j :: 0 <= j < (if isTop then frame.index else frame.index - 1) && j < |frame.rows| ==>
      frame.rows[j] in finished
  }

  ghost predicate StackInv(links: seq<Link>, root: TaskId, stack: seq<Frame>, finished: seq<TaskId>) {
    && (|stack| > 0 ==> stack[0].child == root)
    && Chain(links, stack)
    && (forall i :: 0 <= i < |stack| ==> Passed(stack[i], i == |stack| - 1, finished))
  }

  ghost predicate ColorInv(stack: seq<Frame>, colors: map<TaskId, Color>, finished: seq<TaskId>) {
    && (forall x :: OnStack(stack, x) <==> x in colors && colors[x] == Gray)
    && (forall x :: x in finished <==> x in colors && colors[x] == Black)
  }

  ghost predicate NodeInv<R>(tasks: map<TaskId, R>, links: seq<Link>, root: TaskId,
                             colors: map<TaskId, Color>, nodes: map<TaskId, R>) {
    && root in colors
    && nodes.Keys == colors.Keys <= tasks.Keys
    && (forall x :: x in nodes ==> nodes[x] == tasks[x])
    && (forall x :: x in colors ==> Reaches(links, root, x))
  }

  ghost predicate SearchInv<R>(tasks: map<TaskId, R>, links: seq<Link>, root: TaskId,
                               stack: seq<Frame>, colors: map<TaskId, Color>,
                               nodes: map<TaskId, R>, finished: seq<TaskId>) {
    && StackInv(links, root, stack, finished)
    && ColorInv(stack, colors, finished)
    && NodeInv(tasks, links, root, colors, nodes)
    && Topological(links, finished)
  }

  /** Each gray task reaches the one on top of the stack. */
  lemma {:induction false} StackReachesTop(links: seq<Link>, stack: seq<Frame>, i: nat)
    requires Chain(links, stack) && i < |stack|
    ensures Reaches(links, stack[i].child, stack[|stack| - 1].child)
    decreases |stack| - i
  {
    if i == |stack| - 1 {
      ReachesSelf(links, stack[i].child);
    } else {
      StackReachesTop(links, stack, i + 1);
      assert Explores(stack[i], stack[i + 1].child);
      ReachesFromChild(links, stack[i].child, stack[i + 1].child, stack[|stack| - 1].child);
    }
  }

  lemma FinishedSearchIsClosure<R>(tasks: map<TaskId, R>, links: seq<Link>, root: TaskId,
                                   colors: map<TaskId, Color>, nodes: map<TaskId, R>, finished: seq<TaskId>)
    requires SearchInv(tasks, links, root, [], colors, nodes, finished)
    ensures forall x :: x in nodes <==> Reaches(links, root, x)
    ensures NoDanglingAbove(tasks, links, root) && AcyclicAbove(links, root)
  {
    assert finished[..|finished|] == finished;
    TopologicalPrefixClosed(links, finished, |finished|);
    forall x | Reaches(links, root, x) ensures x in finished && !OnCycle(links, x) {
      ClosedHoldsReachable(links, (set y | y in finished[..|finished|]), root, x);
      TopologicalIsAcyclic(links, finished, x);
    }
  }

  /** Popping a frame whose rows are all passed finishes its task. */
  lemma PopStack(links: seq<Link>, root: TaskId, stack: seq<Frame>, finished: seq<TaskId>)
    requires stack != [] && StackInv(links, root, stack, finished) && Topological(links, finished)
    requires stack[|stack| - 1].index == |stack[|stack| - 1].rows|
    ensures StackInv(links, root, stack[..|stack| - 1], finished + [stack[|stack| - 1].child])
    ensures Topological(links, finished + [stack[|stack| - 1].child])
  {
    var top := stack[|stack| - 1];
    var after := finished + [top.child];
    var rest := stack[..|stack| - 1];
    assert Passed(top, true, finished);
    FinishedFrame(links, top, finished, after);
    forall i | 0 <= i < |rest| ensures Passed(rest[i], i == |rest| - 1, after) {
      assert Passed(stack[i], false, finished);
      assert Explores(stack[i], stack[i + 1].child);
    }
    assert Chain(links, rest);
  }

  lemma PopColors(stack: seq<Frame>, colors: map<TaskId, Color>, finished: seq<TaskId>)
    requires stack != [] && ColorInv(stack, colors, finished)
    requires forall i, j :: 0 <= i < j < |stack| ==> stack[i].child != stack[j].child
    ensures var child := stack[|stack| - 1].child;
            && child in colors && child !in finished
            && ColorInv(stack[..|stack| - 1], colors[child := Black], finished + [child])
  {
    var child := stack[|stack| - 1].child;
    var rest := stack[..|stack| - 1];
    assert OnStack(stack, child);
    forall x ensures OnStack(rest, x) <==> OnStack(stack, x) && x != child {
      if OnStack(rest, x) {
        var i :| 0 <= i < |rest| && rest[i].child == x;
        assert stack[i].child == x;
      }
      if OnStack(stack, x) && x != child {
        var i :| 0 <= i < |stack| && stack[i].child == x;
        assert rest[i].child == x;
      }
    }
  }

  /** Moving past a finished row keeps the stack in order. */
  lemma SkipStack(links: seq<Link>, root: TaskId, stack: seq<Frame>, finished: seq<TaskId>)
    requires stack != [] && StackInv(links, root, stack, finished)
    requires var top := stack[|stack| - 1]; top.index < |top.rows| && top.rows[top.index] in finished
    ensures StackInv(links, root, Advance(stack), finished)
  {
    var top := stack[|stack| - 1];
    assert Passed(top, true, finished);
    forall i | 0 <= i < |stack| ensures Passed(Advance(stack)[i], i == |stack| - 1, finished) {
      assert Passed(stack[i], i == |stack| - 1, finished);
    }
    assert Chain(links, Advance(stack)) by {
      forall i | 0 <= i < |stack| - 1 ensures Explores(Advance(stack)[i], Advance(stack)[i + 1].child) {
        assert Explores(stack[i], stack[i + 1].child);
      }
    }
  }

  lemma SkipColors(stack: seq<Frame>, colors: map<TaskId, Color>, finished: seq<TaskId>)
    requires stack != [] && ColorInv(stack, colors, finished)
    ensures ColorInv(Advance(stack), colors, finished)
  {
    forall x ensures OnStack(Advance(stack), x) <==> OnStack(stack, x) {
      if OnStack(stack, x) {
        var i :| 0 <= i < |stack| && stack[i].child == x;
        assert Advance(stack)[i].child == x;
      }
      if OnStack(Advance(stack), x) {
        var i :| 0 <= i < |stack| && Advance(stack)[i].child == x;
        assert stack[i].child == x;
      }
    }
  }

  /** Entering a white parent puts it on the path. */
  lemma PushStack(links: seq<Link>, root: TaskId, stack: seq<Frame>, finished: seq<TaskId>, parent: TaskId)
    requires stack != [] && StackInv(links, root, stack, finished) && !OnStack(stack, parent)
    requires var top := stack[|stack| - 1]; top.index < |top.rows| && top.rows[top.index] == parent
    ensures StackInv(links, root, Enter(links, stack, parent), finished)
  {
    var grown := Enter(links, stack, parent);
    forall i | 0 <= i < |grown| ensures Passed(grown[i], i == |grown| - 1, finished) {
      if i < |stack| {
        assert Passed(stack[i], i == |stack| - 1, finished);
      }
    }
    forall i | 0 <= i < |grown| - 1 ensures Explores(grown[i], grown[i + 1].child) {
      if i < |stack| - 1 {
        assert Explores(stack[i], stack[i + 1].child);
      }
    }
    forall i, j | 0 <= i < j < |grown| ensures grown[i].child != grown[j].child {
      assert grown[i].child == stack[i].child;
    }
    assert Chain(links, grown);
  }

  lemma PushColors(links: seq<Link>, stack: seq<Frame>, colors: map<TaskId, Color>, finished: seq<TaskId>, parent: TaskId)
    requires stack != [] && ColorInv(stack, colors, finished) && parent !in colors
    ensures ColorInv(Enter(links, stack, parent), colors[parent := Gray], finished)
  {
    var grown := Enter(links, stack, parent);
    assert grown[|stack|].child == parent;
    forall x ensures OnStack(grown, x) <==> OnStack(stack, x) || x == parent {
      if OnStack(stack, x) {
        var i :| 0 <= i < |stack| && stack[i].child == x;
        assert grown[i].child == x;
      }
      if OnStack(grown, x) && x != parent {
        var i :| 0 <= i < |grown| && grown[i].child == x;
        assert stack[i].child == x;
      }
    }
  }

  /** `parent` becomes the top of the stack, and the frame below points past it. */
  function Enter(links: seq<Link>, stack: seq<Frame>, parent: TaskId): (grown: seq<Frame>)
    requires stack != []
  {
    Advance(stack) + [Frame(parent, ParentRows(links, parent), 0)]
  }

  /** The top frame moves on to its next row. */
  function Advance(stack: seq<Frame>): (moved: seq<Frame>)
    requires stack != []
  {
    stack[|stack| - 1 := stack[|stack| - 1].(index := stack[|stack| - 1].index + 1)]
  }

  ghost function Unfinished<R>(tasks: map<TaskId, R>, finished: seq<TaskId>): set<TaskId> {
    set x | x in tasks && x !in finished
  }

  ghost function RowsLeft(stack: seq<Frame>): int {
    if stack == [] then 0 else |stack[|stack| - 1].rows| - stack[|stack| - 1].index
  }

  /** Walks the parent links above `root`.  For any link table, with cycles,
      diamonds, duplicate or dangling rows, the search ends; it answers with
      nodes exactly when the closure is whole and acyclic, and then the nodes
      are the rows of exactly that closure. */
  method TerminalChainAncestors<R>(tasks: map<TaskId, R>, links: seq<Link>, root: TaskId)
    returns (result: Result<map<TaskId, R>, ChainError>)
    ensures result.Ok? <==> root in tasks && NoDanglingAbove(tasks, links, root) && AcyclicAbove(links, root)
    ensures result.Ok? ==> forall x :: x in result.value <==> Reaches(links, root, x)
    ensures result.Ok? ==> forall x :: x in result.value ==> x in tasks && result.value[x] == tasks[x]
    ensures result.Err? && result.error.MissingRoot? ==> root !in tasks
    ensures result.Err? && result.error.MissingParent? ==>
              result.error.parent !in tasks && Reaches(links, root, result.error.parent)
    ensures result.Err? && result.error.CyclicLink? ==>
              && Link(result.error.parent, result.error.child) in links
              && Reaches(links, root, result.error.child)
              && OnCycle(links, result.error.child)
  {
    ReachesSelf(links, root);
    if root !in tasks {
      return Err(MissingRoot);
    }
    var nodes := map[root := tasks[root]];
    var colors: map<TaskId, Color> := map[root := Gray];
    var stack := [Frame(root, ParentRows(links, root), 0)];
    ghost var finished: seq<TaskId> := [];
    InitialSearch(tasks, links, root, stack, colors, nodes);
    while stack != []
      invariant SearchInv(tasks, links, root, stack, colors, nodes, finished)
      decreases |Unfinished(tasks, finished)|, |tasks.Keys - colors.Keys|, RowsLeft(stack)
    {
      var top := stack[|stack| - 1];
      if top.index >= |top.rows| {
        Pop(tasks, links, root, stack, colors, nodes, finished);
        colors := colors[top.child := Black];
        stack := stack[..|stack| - 1];
        finished := finished + [top.child];
        continue;
      }
      var parent := top.rows[top.index];
      RowIsReachable(links, root, stack, finished, colors);
      if parent !in tasks {
        return Err(MissingParent(parent));
      }
      if parent in colors && colors[parent] == Gray {
        GrayParentIsCycle(links, stack, parent);
        return Err(CyclicLink(parent, top.child));
      }
      if parent in colors {
        Skip(tasks, links, root, stack, colors, nodes, finished);
        stack := Advance(stack);
        continue;
      }
      Push(tasks, links, root, stack, colors, nodes, finished, parent);
      nodes := nodes[parent := tasks[parent]];
      colors := colors[parent := Gray];
      stack := Enter(links, stack, parent);
    }
    FinishedSearchIsClosure(tasks, links, root, colors, nodes, finished);
    return Ok(nodes);
  }

  lemma Pop<R>(tasks: map<TaskId, R>, links: seq<Link>, root: TaskId, stack: seq<Frame>,
               colors: map<TaskId, Color>, nodes: map<TaskId, R>, finished: seq<TaskId>)
    requires stack != [] && SearchInv(tasks, links, root, stack, colors, nodes, finished)
    requires stack[|stack| - 1].index >= |stack[|stack| - 1].rows|
    ensures var child := stack[|stack| - 1].child;
            && SearchInv(tasks, links, root, stack[..|stack| - 1], colors[child := Black], nodes, finished + [child])
            && |Unfinished(tasks, finished + [child])| < |Unfinished(tasks, finished)|
  {
    var child := stack[|stack| - 1].child;
    PopStack(links, root, stack, finished);
    PopColors(stack, colors, finished);
    assert Unfinished(tasks, finished + [child]) == Unfinished(tasks, finished) - {child};
  }

  lemma Skip<R>(tasks: map<TaskId, R>, links: seq<Link>, root: TaskId, stack: seq<Frame>,
                colors: map<TaskId, Color>, nodes: map<TaskId, R>, finished: seq<TaskId>)
    requires stack != [] && SearchInv(tasks, links, root, stack, colors, nodes, finished)
    requires var top := stack[|stack| - 1];
             top.index < |top.rows| && top.rows[top.index] in colors && colors[top.rows[top.index]] == Black
    ensures SearchInv(tasks, links, root, Advance(stack), colors, nodes, finished)
    ensures RowsLeft(Advance(stack)) < RowsLeft(stack)
  {
    SkipStack(links, root, stack, finished);
    SkipColors(stack, colors, finished);
  }

  lemma Push<R>(tasks: map<TaskId, R>, links: seq<Link>, root: TaskId, stack: seq<Frame>,
                colors: map<TaskId, Color>, nodes: map<TaskId, R>, finished: seq<TaskId>, parent: TaskId)
    requires stack != [] && SearchInv(tasks, links, root, stack, colors, nodes, finished)
    requires var top := stack[|stack| - 1]; top.index < |top.rows| && top.rows[top.index] == parent
    requires parent in tasks && parent !in colors && Reaches(links, root, parent)
    ensures SearchInv(tasks, links, root, Enter(links, stack, parent),
                      colors[parent := Gray], nodes[parent := tasks[parent]], finished)
    ensures |tasks.Keys - colors[parent := Gray].Keys| < |tasks.Keys - colors.Keys|
  {
    PushStack(links, root, stack, finished, parent);
    PushColors(links, stack, colors, finished, parent);
    assert tasks.Keys - colors[parent := Gray].Keys == tasks.Keys - colors.Keys - {parent};
  }

  lemma InitialSearch<R>(tasks: map<TaskId, R>, links: seq<Link>, root: TaskId,
                         stack: seq<Frame>, colors: map<TaskId, Color>, nodes: map<TaskId, R>)
    requires root in tasks && nodes == map[root := tasks[root]] && colors == map[root := Gray]
    requires stack == [Frame(root, ParentRows(links, root), 0)]
    ensures SearchInv(tasks, links, root, stack, colors, nodes, [])
  {
    ReachesSelf(links, root);
    assert stack[0].child == root;
  }

  /** The next row of the top frame is a parent link, and so leads into the closure. */
  lemma RowIsReachable(links: seq<Link>, root: TaskId, stack: seq<Frame>, finished: seq<TaskId>, colors: map<TaskId, Color>)
    requires stack != [] && StackInv(links, root, stack, finished) && ColorInv(stack, colors, finished)
    requires forall x :: x in colors ==> Reaches(links, root, x)
    requires stack[|stack| - 1].index < |stack[|stack| - 1].rows|
    ensures var top := stack[|stack| - 1];
            && Link(top.rows[top.index], top.child) in links
            && Reaches(links, root, top.child) && Reaches(links, root, top.rows[top.index])
  {
    var top := stack[|stack| - 1];
    assert OnStack(stack, top.child);
    assert top.rows[top.index] in ParentRows(links, top.child);
    ReachesParent(links, root, top.child, top.rows[top.index]);
  }

  lemma GrayParentIsCycle(links: seq<Link>, stack: seq<Frame>, parent: TaskId)
    requires stack != [] && Chain(links, stack) && OnStack(stack, parent)
    requires Link(parent, stack[|stack| - 1].child) in links
    ensures OnCycle(links, stack[|stack| - 1].child)
  {
    var i :| 0 <= i < |stack| && stack[i].child == parent;
    StackReachesTop(links, stack, i);
  }

  lemma FinishedFrame(links: seq<Link>, top: Frame, before: seq<TaskId>, after: seq<TaskId>)
    requires Topological(links, before) && after == before + [top.child]
    requires top.rows == ParentRows(links, top.child)
    requires forall j :: 0 <= j < |top.rows| ==> top.rows[j] in before
    ensures Topological(links, after)
  {
    forall k, p | 0 <= k < |after| && Link(p, after[k]) in links ensures p in after[..k] {
      if k < |before| {
        assert after[..k] == before[..k];
      } else {
        assert after[..k] == before;
        assert p in top.rows;
      }
    }
  }
}
