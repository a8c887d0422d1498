/** One Kanban board database. */
module KanbanBoard {
  import opened Prelude
  import opened EventLog

  /** The columns of a `tasks` row that the ancestor search reads back. */
  datatype Row = Row(
    status: string,
    assignee: Option<string>,
    claimLock: Option<string>,
    claimExpires: Option<int>,
    workerPid: Option<int>,
    currentRunId: Option<int>,
    blockKind: Option<string>,
    blockRecurrences: int,
    completedAt: Option<int>)

  datatype Task = Task(row: Row, body: string)

  datatype Comment = Comment(taskId: TaskId, author: string, body: string, createdAt: int)

  /** A committed state of the board, as a reader outside the write lock sees it. */
  datatype Snapshot = Snapshot(tasks: map<TaskId, Task>, links: seq<Link>, events: seq<Event>)

  class Board {
    var tasks: map<TaskId, Task>
    var links: seq<Link>
    var events: seq<Event>
    var comments: seq<Comment>

    constructor (tasks: map<TaskId, Task>, links: seq<Link>, events: seq<Event>, comments: seq<Comment>)
      ensures this.tasks == tasks && this.links == links && this.events == events && this.comments == comments
    {
      this.tasks, this.links, this.events, this.comments := tasks, links, events, comments;
    }
  }

  const TERMINAL: set<string> := {"done", "archived"}

  predicate TerminalTask(tasks: map<TaskId, Task>, id: TaskId) {
    id in tasks && tasks[id].row.status in TERMINAL
  }

  /** Every direct parent of `child` is present and terminal. */
  ghost predicate ParentsTerminal(tasks: map<TaskId, Task>, links: seq<Link>, child: TaskId) {
    forall p :: Link(p, child) in links ==> TerminalTask(tasks, p)
  }
}

/** The dependency gate in its two forms, and the transition it guards. */
module DependencyGate {
  import opened Prelude
  import opened EventLog
  import opened KanbanBoard

  datatype ParentStatus = ParentStatus(id: TaskId, status: string)

  datatype Gate = Gate(parents: seq<ParentStatus>, pending: seq<ParentStatus>)

  /** `a` sorts before `b`, or is `b`. */
  predicate Before(a: TaskId, b: TaskId) {
    a == "" || (b != "" && (a[0] < b[0] || (a[0] == b[0] && Before(a[1..], b[1..]))))
  }

  lemma {:induction false} BeforeIsTotal(a: TaskId, b: TaskId)
    ensures Before(a, b) || Before(b, a)
  {
    if a != "" && b != "" && a[0] == b[0] {
      BeforeIsTotal(a[1..], b[1..]);
    }
  }

  /** Text order: a prefix comes first, and otherwise the first difference decides. */
  lemma {:induction false} BeforeWhen(a: TaskId, b: TaskId)
    ensures Before(a, b) <==> a <= b || exists k :: DiffersAt(a, b, k) && a[k] < b[k]
  {
    if a != "" && b != "" && a[0] == b[0] {
      BeforeWhen(a[1..], b[1..]);
      assert a <= b <==> a[1..] <= b[1..];
      if k :| DiffersAt(a[1..], b[1..], k) && a[1..][k] < b[1..][k] {
        assert DiffersAt(a, b, k + 1) && a[k + 1] < b[k + 1];
      }
      if k :| DiffersAt(a, b, k) && a[k] < b[k] {
        assert a[1..][..k - 1] == a[..k][1..] && b[1..][..k - 1] == b[..k][1..];
        assert DiffersAt(a[1..], b[1..], k - 1);
      }
    } else if a != "" && b != "" {
      assert DiffersAt(a, b, 0);
      assert forall k :: DiffersAt(a, b, k) && k > 0 ==> a[..k][0] == b[..k][0];
    }
  }

  ghost predicate DiffersAt(a: TaskId, b: TaskId, k: int) {
    0 <= k < |a| && k < |b| && a[..k] == b[..k] && a[k] != b[k]
  }

  predicate InIdOrder(rows: seq<TaskId>) {
    forall i :: 0 <= i < |rows| - 1 ==> Before(rows[i], rows[i + 1])
  }

  function InsertId(rows: seq<TaskId>, p: TaskId): (grown: seq<TaskId>)
    ensures forall q :: q in grown <==> q == p || q in rows
    ensures InIdOrder(rows) ==> InIdOrder(grown)
    ensures grown != [] && (grown[0] == p || (rows != [] && grown[0] == rows[0]))
  {
    if rows == [] then [p]
    else if Before(p, rows[0]) then [p] + rows
    else
      BeforeIsTotal(p, rows[0]);
      assert InIdOrder(rows) ==> InIdOrder(rows[1..]);
      [rows[0]] + InsertId(rows[1..], p)
  }

  /** `ORDER BY parent_id`. */
  function SortIds(rows: seq<TaskId>): (sorted: seq<TaskId>)
    ensures InIdOrder(sorted)
    ensures forall q :: q in sorted <==> q in rows
  {
    if rows == [] then [] else InsertId(SortIds(rows[1..]), rows[0])
  }

  lemma {:induction false} InsertStatuses(tasks: map<TaskId, Task>, rows: seq<TaskId>, p: TaskId)
    requires p in tasks && forall q :: q in rows ==> q in tasks
    ensures multiset(ParentStatuses(tasks, InsertId(rows, p)))
         == multiset(ParentStatuses(tasks, rows)) + multiset{ParentStatus(p, tasks[p].row.status)}
  {
    if rows != [] && !Before(p, rows[0]) {
      InsertStatuses(tasks, rows[1..], p);
      assert InsertId(rows, p)[1..] == InsertId(rows[1..], p);
    } else {
      assert InsertId(rows, p)[1..] == rows;
    }
  }

  /** Sorting loses and invents no parent. */
  lemma {:induction false} SortStatuses(tasks: map<TaskId, Task>, rows: seq<TaskId>)
    requires forall q :: q in rows ==> q in tasks
    ensures multiset(ParentStatuses(tasks, SortIds(rows))) == multiset(ParentStatuses(tasks, rows))
  {
    if rows != [] {
      SortStatuses(tasks, rows[1..]);
      InsertStatuses(tasks, SortIds(rows[1..]), rows[0]);
    }
  }

  /** `_internal_dependency_gate`: the live statuses of the direct parents; a
      dangling link is a lookup failure, not a satisfied dependency. */
  method InternalDependencyGate(tasks: map<TaskId, Task>, links: seq<Link>, child: TaskId)
    returns (gate: Result<Gate, TaskId>)
    ensures gate.Ok? <==> forall p :: Link(p, child) in links ==> p in tasks
    ensures gate.Err? ==> Link(gate.error, child) in links && gate.error !in tasks
    ensures gate.Ok? ==> gate.value.parents == ParentStatuses(tasks, SortIds(ParentRows(links, child)))
    ensures gate.Ok? ==> multiset(gate.value.parents) == multiset(ParentStatuses(tasks, ParentRows(links, child)))
    ensures gate.Ok? ==> (gate.value.pending == [] <==> ParentsTerminal(tasks, links, child))
    ensures gate.Ok? ==> forall s :: s in gate.value.pending <==> s in gate.value.parents && s.status !in TERMINAL
  {
    var rows := SortIds(ParentRows(links, child));
    var parents: seq<ParentStatus> := [];
    var pending: seq<ParentStatus> := [];
    for i := 0 to |rows|
      invariant forall j :: 0 <= j < i ==> rows[j] in tasks
      invariant parents == ParentStatuses(tasks, rows[..i])
      invariant forall s :: s in pending <==> s in parents && s.status !in TERMINAL
    {
      assert rows[i] in rows;
      if rows[i] !in tasks {
        return Err(rows[i]);
      }
      var parent := ParentStatus(rows[i], tasks[rows[i]].row.status);
      assert rows[..i + 1] == rows[..i] + [rows[i]];
      StatusesSnoc(tasks, rows[..i], rows[i]);
      parents := parents + [parent];
      if parent.status !in TERMINAL {
        pending := pending + [parent];
      }
    }
    assert rows[..|rows|] == rows;
    StatusesMembers(tasks, rows);
    SortStatuses(tasks, ParentRows(links, child));
    forall p | Link(p, child) in links ensures p in tasks { assert p in rows; }
    if pending == [] {
      forall p | Link(p, child) in links ensures TerminalTask(tasks, p) {
        assert p in rows && ParentStatus(p, tasks[p].row.status) in parents;
      }
    } else {
      assert pending[0] in pending;
    }
    return Ok(Gate(parents, pending));
  }

  /** The rows of the gate query, in table order. */
  function ParentStatuses(tasks: map<TaskId, Task>, rows: seq<TaskId>): (s: seq<ParentStatus>)
    requires forall p :: p in rows ==> p in tasks
    ensures |s| == |rows|
  {
    if rows == [] then []
    else [ParentStatus(rows[0], tasks[rows[0]].row.status)] + ParentStatuses(tasks, rows[1..])
  }

  lemma {:induction false} StatusesSnoc(tasks: map<TaskId, Task>, rows: seq<TaskId>, p: TaskId)
    requires p in tasks && forall q :: q in rows ==> q in tasks
    ensures ParentStatuses(tasks, rows + [p]) == ParentStatuses(tasks, rows) + [ParentStatus(p, tasks[p].row.status)]
  {
    if rows != [] {
      StatusesSnoc(tasks, rows[1..], p);
      assert (rows + [p])[1..] == rows[1..] + [p];
    }
  }

  lemma {:induction false} StatusesMembers(tasks: map<TaskId, Task>, rows: seq<TaskId>)
    requires forall q :: q in rows ==> q in tasks
    ensures forall s :: s in ParentStatuses(tasks, rows) <==> s.id in rows && s.status == tasks[s.id].row.status
  {
    if rows != [] {
      StatusesMembers(tasks, rows[1..]);
    }
  }

  /** The count that `_dependency_guard_sql` folds into the write: links of the
      child for which no terminal parent row exists. */
  function GuardCount(tasks: map<TaskId, Task>, links: seq<Link>, child: TaskId): (count: nat) {
    if links == [] then 0
    else (if links[0].child == child && !TerminalTask(tasks, links[0].parent) then 1 else 0)
         + GuardCount(tasks, links[1..], child)
  }

  /** The SQL guard counts zero exactly when the Python gate succeeds with
      nothing pending; a dangling link fails both. */
  lemma {:induction false} GuardAgreesWithGate(tasks: map<TaskId, Task>, links: seq<Link>, child: TaskId)
    ensures GuardCount(tasks, links, child) == 0 <==> ParentsTerminal(tasks, links, child)
  {
    if links != [] {
      GuardAgreesWithGate(tasks, links[1..], child);
      assert forall l :: l in links <==> l == links[0] || l in links[1..];
    }
  }
}
