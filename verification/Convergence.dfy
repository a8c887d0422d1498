/** Terminal merge convergence: a stale rework graph under a closed Issue whose
    pull requests merged is brought to terminal states in one transaction. */
module TerminalConvergence {
  import opened Prelude
  import opened EventLog
  import opened KanbanBoard
  import opened Graph
  import opened NodeRoles
  import AncestorSearch
  import DependencyGate
  import Completion
  import Provenance

  const ROOT_STATUSES: set<string> := {"todo", "review"}

  datatype Outcome =
    | NotEligible
    | DependencyAmbiguous(parent: TaskId)
    | AmbiguousGraph(error: AncestorSearch.ChainError)
    | ActiveOwnership(node: TaskId)
    | Unconvergeable(cause: RoleError)
    | GraphChanged
    | Predicted
    | Converged(order: seq<TaskId>)
    | RolledBack(node: TaskId)

  function RowsOf(tasks: map<TaskId, Task>): (rows: map<TaskId, Row>)
    ensures rows.Keys == tasks.Keys
    ensures forall x :: x in rows ==> rows[x] == tasks[x].row
  {
    map x | x in tasks :: tasks[x].row
  }

  function EdgesInto(links: seq<Link>, ids: set<TaskId>): (edges: seq<Link>)
    ensures forall l :: l in edges <==> l in links && l.child in ids
  {
    if links == [] then []
    else (if links[0].child in ids then [links[0]] else []) + EdgesInto(links[1..], ids)
  }

  /** `_terminal_chain_edge_snapshot`: sorted rows compare as a multiset. */
  function EdgeSnapshot(links: seq<Link>, ids: set<TaskId>): (edges: multiset<Link>)
    ensures forall l :: l in edges <==> l in links && l.child in ids
  {
    assert forall l :: l in multiset(EdgesInto(links, ids)) <==> l in EdgesInto(links, ids);
    multiset(EdgesInto(links, ids))
  }

  /** `_node_has_active_ownership`, with Python's notion of a truthy column. */
  predicate Owned(row: Row) {
    || row.status == "running"
    || (row.claimLock.Some? && row.claimLock.value != "")
    || (row.workerPid.Some? && row.workerPid.value != 0)
    || (row.currentRunId.Some? && row.currentRunId.value != 0)
  }

  /** The ownership columns hold SQL nulls, as the guarded updates demand. */
  predicate Unowned(row: Row) {
    row.claimLock.None? && row.workerPid.None? && row.currentRunId.None?
  }

  function HeadsOf(prs: seq<Completion.PullRequest>): (heads: map<int, string>) {
    if prs == [] then map[]
    else HeadsOf(prs[..|prs| - 1])[prs[|prs| - 1].number := prs[|prs| - 1].headSha]
  }

  /** `_terminal_convergence_evidence`: the merged heads, when the decision is
      done, every request merged and the Issue reads as closed. */
  function MergeEvidence(ref: GithubTaskRef, d: Completion.Decision, issue: Option<Completion.IssueState>): (heads: Option<map<int, string>>) {
    if d.desired != Some(Completion.Done) || d.prs == []
       || !(forall pr :: pr in d.prs ==> Completion.MergedIntoTarget(ref, pr))
       || issue != Some(Completion.IssueClosed)
    then None
    else Some(HeadsOf(d.prs))
  }

  /** The decision is done over requests that all merged into the target branch,
      and the Issue reads as closed. */
  ghost predicate MergedUnderClosedIssue(ref: GithubTaskRef, d: Completion.Decision, issue: Option<Completion.IssueState>) {
    && issue == Some(Completion.IssueClosed) && d.desired == Some(Completion.Done) && d.prs != []
    && forall pr :: pr in d.prs ==> pr.merged && pr.state == Completion.Closed && pr.baseBranch == ref.targetBranch
  }

  /** Each number stands for the head of the last request that carries it. */
  ghost predicate HeadsByNumber(prs: seq<Completion.PullRequest>, heads: map<int, string>) {
    && (forall n :: n in heads ==> exists pr :: pr in prs && pr.number == n && pr.headSha == heads[n])
    && (forall i :: 0 <= i < |prs| ==> prs[i].number in heads)
    && (forall i :: 0 <= i < |prs| && (forall j :: i < j < |prs| ==> prs[j].number != prs[i].number) ==>
          heads[prs[i].number] == prs[i].headSha)
  }

  lemma {:induction false} HeadsAreByNumber(prs: seq<Completion.PullRequest>)
    ensures HeadsByNumber(prs, HeadsOf(prs))
  {
    if prs != [] {
      var n := |prs| - 1;
      HeadsAreByNumber(prs[..n]);
      assert forall pr :: pr in prs <==> pr in prs[..n] || pr == prs[n];
      assert forall i :: 0 <= i < n ==> prs[i] == prs[..n][i];
    }
  }

  /** Merge evidence is exactly that, and its heads are those of the requests. */
  lemma MergeEvidenceWhen(ref: GithubTaskRef, d: Completion.Decision, issue: Option<Completion.IssueState>)
    ensures MergeEvidence(ref, d, issue).Some? <==> MergedUnderClosedIssue(ref, d, issue)
    ensures MergeEvidence(ref, d, issue).Some? ==> HeadsByNumber(d.prs, MergeEvidence(ref, d, issue).value)
  {
    HeadsAreByNumber(d.prs);
    hide HeadsOf, HeadsByNumber;
  }

  /** Neither running, nor claimed, nor with a worker or a run, as Python reads it. */
  ghost predicate Free(row: Row) {
    && row.status != "running"
    && (row.claimLock.None? || row.claimLock.value == "")
    && (row.workerPid.None? || row.workerPid.value == 0)
    && (row.currentRunId.None? || row.currentRunId.value == 0)
  }

  lemma PrevalidatedWhen(r: Request, e: Earlier)
    requires Prevalidated(r, e)
    ensures MergedUnderClosedIssue(r.ref, r.decision, r.issue)
    ensures r.row.row.status in {"todo", "review"}
    ensures forall id :: id in SeenNodes(r, e) ==> Free(SeenNodes(r, e)[id])
  {
    MergeEvidenceWhen(r.ref, r.decision, r.issue);
    hide SeenNodes, SeenView, AllConvergeable, SameRoles, GoodGraph, ParentsTerminal, MergeEvidence, MergedUnderClosedIssue;
  }

  // -------------------------------------------------------------- conditions

  ghost predicate GoodGraph(tasks: map<TaskId, Task>, links: seq<Link>, root: TaskId) {
    root in tasks && NoDanglingAbove(tasks, links, root) && AcyclicAbove(links, root)
  }

  /** The rows of the root and of all its ancestors. */
  ghost function Closure(tasks: map<TaskId, Task>, links: seq<Link>, root: TaskId): (nodes: map<TaskId, Row>)
  {
    map x | x in tasks && Reaches(links, root, x) :: tasks[x].row
  }

  /** The states that the reads before the write lock saw, one for each read. */
  datatype Earlier = Earlier(gate: Snapshot, walk: Snapshot, edges: Snapshot, roles: Snapshot, verified: Snapshot)

  /** What one pass is given: the card as the caller read it, and GitHub's answers. */
  datatype Request = Request(root: TaskId, row: Task, ref: GithubTaskRef, backed: string -> bool,
                             decision: Completion.Decision, issue: Option<Completion.IssueState>)

  ghost predicate LogsKeyed(earlier: Earlier) {
    DistinctIds(earlier.roles.events) && DistinctIds(earlier.verified.events)
  }

  ghost function SeenNodes(r: Request, e: Earlier): map<TaskId, Row> {
    Closure(e.walk.tasks, e.walk.links, r.root)
  }

  ghost function SeenView(r: Request, e: Earlier, log: seq<Event>, heads: Option<map<int, string>>): View {
    var nodes := SeenNodes(r, e);
    View(r.root, nodes, EdgeSnapshot(e.edges.links, nodes.Keys), log, r.ref, heads)
  }

  ghost predicate SameRoles(v: View, w: View) {
    v.nodes.Keys == w.nodes.Keys && forall id :: id in v.nodes ==> RoleOf(v, id) == RoleOf(w, id)
  }

  /** Everything the pass establishes before it takes the write lock. */
  ghost predicate Prevalidated(r: Request, e: Earlier) {
    var heads := MergeEvidence(r.ref, r.decision, r.issue);
    && r.row.row.status in ROOT_STATUSES
    && r.backed(r.row.body)
    && (forall p :: Link(p, r.root) in e.gate.links ==> p in e.gate.tasks)
    && !ParentsTerminal(e.gate.tasks, e.gate.links, r.root)
    && GoodGraph(e.walk.tasks, e.walk.links, r.root)
    && (forall id :: id in SeenNodes(r, e) ==> !Owned(SeenNodes(r, e)[id]))
    && AllConvergeable(SeenView(r, e, e.roles.events, None))
    && heads.Some?
    && AllConvergeable(SeenView(r, e, e.verified.events, heads))
    && SameRoles(SeenView(r, e, e.verified.events, heads), SeenView(r, e, e.roles.events, None))
  }

  ghost function LockedView(r: Request, tasks: map<TaskId, Task>, links: seq<Link>, log: seq<Event>): View {
    var nodes := Closure(tasks, links, r.root);
    View(r.root, nodes, EdgeSnapshot(links, nodes.Keys), log, r.ref, MergeEvidence(r.ref, r.decision, r.issue))
  }

  ghost function GateParents(tasks: map<TaskId, Task>, links: seq<Link>, root: TaskId): multiset<DependencyGate.ParentStatus>
    requires forall p :: Link(p, root) in links ==> p in tasks
  {
    multiset(DependencyGate.ParentStatuses(tasks, ParentRows(links, root)))
  }

  /** The board under the write lock is still the one that was prevalidated. */
  ghost predicate Unchanged(r: Request, e: Earlier, tasks: map<TaskId, Task>, links: seq<Link>, log: seq<Event>)
    requires Prevalidated(r, e)
  {
    && GoodGraph(tasks, links, r.root)
    && Closure(tasks, links, r.root) == SeenNodes(r, e)
    && EdgeSnapshot(links, SeenNodes(r, e).Keys) == EdgeSnapshot(e.edges.links, SeenNodes(r, e).Keys)
    && tasks[r.root].body == r.row.body && tasks[r.root].row.status == r.row.row.status
    && (forall p :: Link(p, r.root) in links ==> p in tasks)
    && GateParents(tasks, links, r.root) == GateParents(e.gate.tasks, e.gate.links, r.root)
    && AllConvergeable(LockedView(r, tasks, links, log))
    && SameRoles(LockedView(r, tasks, links, log), SeenView(r, e, e.verified.events, MergeEvidence(r.ref, r.decision, r.issue)))
  }

  // ------------------------------------------------------------- the new state

  function DoneRow(row: Row, now: int): (r: Row) {
    row.(status := "done", completedAt := Some(now), claimLock := None, claimExpires := None,
         workerPid := None, currentRunId := None, blockKind := None, blockRecurrences := 0)
  }

  function ArchivedRow(row: Row): (r: Row) {
    row.(status := "archived", assignee := None, claimLock := None, claimExpires := None,
         workerPid := None, currentRunId := None, blockKind := None, blockRecurrences := 0)
  }

  /** Both writes leave no claim, worker, run or block.  A completed card keeps its
      assignee and gets its completion time; an archived one loses its assignee and
      keeps whatever completion time it had. */
  lemma ConvergedColumns(was: Row, now: int)
    ensures var done := DoneRow(was, now);
            && done.status == "done" && done.completedAt == Some(now) && done.assignee == was.assignee
            && done.claimLock.None? && done.claimExpires.None? && done.workerPid.None? && done.currentRunId.None?
            && done.blockKind.None? && done.blockRecurrences == 0
    ensures var archived := ArchivedRow(was);
            && archived.status == "archived" && archived.completedAt == was.completedAt && archived.assignee.None?
            && archived.claimLock.None? && archived.claimExpires.None? && archived.workerPid.None? && archived.currentRunId.None?
            && archived.blockKind.None? && archived.blockRecurrences == 0
  {}

  /** The board with the cards of `ids` terminal: archived, or else done. */
  function Rewritten(tasks: map<TaskId, Task>, ids: set<TaskId>, archive: set<TaskId>, now: int): (after: map<TaskId, Task>) {
    map x | x in tasks ::
      if x !in ids then tasks[x]
      else tasks[x].(row := if x in archive then ArchivedRow(tasks[x].row) else DoneRow(tasks[x].row, now))
  }

  function NodePayload(previous: string, archived: bool): (payload: map<string, Json>) {
    map["source" := Str("github"),
        "previous_status" := Str(previous),
        "new_status" := Str(if archived then "archived" else "done"),
        "reason" := Str(if archived then "terminal_merge_convergence_archived_unstarted" else "terminal_merge_convergence"),
        "issue_state" := Str("closed"),
        "merge_authority" := Str("human"),
        "auto_merge" := Bool(false)]
  }

  /** One durable event for each card of `order`, in that order. */
  function Logged(log: seq<Event>, before: map<TaskId, Task>, order: seq<TaskId>, archive: set<TaskId>, now: int): (grown: seq<Event>)
    requires forall x :: x in order ==> x in before
  {
    if order == [] then log
    else
      var n := |order| - 1;
      AppendEvent(Logged(log, before, order[..n], archive, now), order[n], "github_pr_sync",
                  NodePayload(before[order[n]].row.status, order[n] in archive), now)
  }

  function Ids(order: seq<TaskId>): (ids: set<TaskId>) {
    set x | x in order
  }

  ghost predicate Enumerates(order: seq<TaskId>, ids: set<TaskId>) {
    && (forall i, j :: 0 <= i < j < |order| ==> order[i] != order[j])
    && (forall x :: x in order <==> x in ids)
  }

  /** The cards a classified view changes: stale rework, stale reviewers, the root. */
  ghost function ArchiveSet(v: View): set<TaskId> {
    set id | id in v.nodes && RoleOf(v, id).Reviewer?
  }

  ghost function TerminalizeSet(v: View): set<TaskId> {
    set id | id in v.nodes && RoleOf(v, id).Stale?
  }

  ghost function ChangeSet(v: View): set<TaskId> {
    ArchiveSet(v) + TerminalizeSet(v) + {v.root}
  }

  ghost predicate AllUnowned(tasks: map<TaskId, Task>, ids: set<TaskId>) {
    forall id :: id in ids ==> id in tasks && Unowned(tasks[id].row)
  }

  // ------------------------------------------------------------------ the pass

  /** What the pass carries from its reads into the write transaction. */
  datatype Snap = Snap(nodes: map<TaskId, Row>, edges: multiset<Link>, parents: multiset<DependencyGate.ParentStatus>,
                       roles: map<TaskId, Role>, heads: map<int, string>)

  predicate IsRefusal(o: Outcome) {
    !o.Converged? && !o.RolledBack? && !o.Predicted?
  }

  /** Walks the ancestors of the root and keeps their rows. */
  method WalkClosure(tasks: map<TaskId, Task>, links: seq<Link>, root: TaskId)
    returns (nodes: Result<map<TaskId, Row>, AncestorSearch.ChainError>)
    ensures nodes.Ok? <==> GoodGraph(tasks, links, root)
    ensures nodes.Ok? ==> nodes.value == Closure(tasks, links, root) && root in nodes.value && root in tasks
  {
    nodes := AncestorSearch.TerminalChainAncestors(RowsOf(tasks), links, root);
    assert NoDanglingAbove(RowsOf(tasks), links, root) <==> NoDanglingAbove(tasks, links, root) by {
      assert forall x :: x in RowsOf(tasks) <==> x in tasks;
    }
    if nodes.Ok? {
      ReachesSelf(links, root);
      assert nodes.value == Closure(tasks, links, root);
    }
  }

  method FirstOwned(nodes: map<TaskId, Row>) returns (node: Option<TaskId>)
    ensures node.None? <==> forall id :: id in nodes ==> !Owned(nodes[id])
    ensures node.Some? ==> node.value in nodes && Owned(nodes[node.value])
  {
    var todo := nodes.Keys;
    while todo != {}
      invariant forall id :: id in nodes && id !in todo ==> !Owned(nodes[id])
      invariant todo <= nodes.Keys
    {
      var id :| id in todo;
      if Owned(nodes[id]) {
        return Some(id);
      }
      todo := todo - {id};
    }
    return None;
  }

  lemma SameClassification(v: View, w: View, vr: map<TaskId, Role>, wr: map<TaskId, Role>)
    requires Classified(v, vr) && Classified(w, wr)
    ensures vr == wr <==> SameRoles(v, w)
  {
    hide RoleOf;
    if SameRoles(v, w) {
      assert forall id :: id in vr ==> id in v.nodes && vr[id] == wr[id];
    }
    if vr == wr {
      assert forall id :: id in v.nodes ==> id in vr && vr[id] == RoleOf(v, id) == RoleOf(w, id);
    }
  }

  /** What each refusal before the lock stands for. */
  ghost predicate RefusedBefore(r: Request, e: Earlier, why: Outcome) {
    match why
    case NotEligible =>
      || r.row.row.status !in {"todo", "review"} || !r.backed(r.row.body)
      || ParentsTerminal(e.gate.tasks, e.gate.links, r.root)
      || (r.row.row.status == "review" && exists id :: id in SeenNodes(r, e) && Owned(SeenNodes(r, e)[id]))
      || !MergedUnderClosedIssue(r.ref, r.decision, r.issue)
    case DependencyAmbiguous(parent) => Link(parent, r.root) in e.gate.links && parent !in e.gate.tasks
    case AmbiguousGraph(_) => !GoodGraph(e.walk.tasks, e.walk.links, r.root)
    case ActiveOwnership(node) => r.row.row.status == "todo" && node in SeenNodes(r, e) && Owned(SeenNodes(r, e)[node])
    case Unconvergeable(_) =>
      || !AllConvergeable(SeenView(r, e, e.roles.events, None))
      || !AllConvergeable(SeenView(r, e, e.verified.events, MergeEvidence(r.ref, r.decision, r.issue)))
    case GraphChanged => !SameRoles(SeenView(r, e, e.verified.events, MergeEvidence(r.ref, r.decision, r.issue)), SeenView(r, e, e.roles.events, None))
    case _ => false
  }

  /** What each refusal under the lock stands for. */
  ghost predicate RefusedLocked(r: Request, e: Earlier, tasks: map<TaskId, Task>, links: seq<Link>, log: seq<Event>, why: Outcome)
    requires Prevalidated(r, e)
  {
    match why
    case AmbiguousGraph(_) => !GoodGraph(tasks, links, r.root)
    case DependencyAmbiguous(parent) => Link(parent, r.root) in links && parent !in tasks
    case Unconvergeable(_) => !AllConvergeable(LockedView(r, tasks, links, log))
    case GraphChanged => GoodGraph(tasks, links, r.root) && !Unchanged(r, e, tasks, links, log)
    case _ => false
  }

  method Prevalidate(r: Request, e: Earlier) returns (snap: Result<Snap, Outcome>)
    requires LogsKeyed(e)
    ensures snap.Ok? <==> Prevalidated(r, e)
    ensures snap.Err? ==> IsRefusal(snap.error) && RefusedBefore(r, e, snap.error)
    ensures snap.Ok? ==>
              && Prevalidated(r, e)
              && snap.value.nodes == SeenNodes(r, e)
              && snap.value.edges == EdgeSnapshot(e.edges.links, snap.value.nodes.Keys)
              && snap.value.parents == GateParents(e.gate.tasks, e.gate.links, r.root)
              && Classified(SeenView(r, e, e.verified.events, Some(snap.value.heads)), snap.value.roles)
              && MergeEvidence(r.ref, r.decision, r.issue) == Some(snap.value.heads)
  {
    hide AllConvergeable, GoodGraph, RoleOf, Classified, SameRoles, Closure, EdgeSnapshot, ParentsTerminal, MergeEvidence, Owned,
         DependencyGate.SortIds, DependencyGate.ParentStatuses, ParentRows;
    if r.row.row.status !in ROOT_STATUSES || !r.backed(r.row.body) {
      return Err(NotEligible);
    }
    var gate := DependencyGate.InternalDependencyGate(e.gate.tasks, e.gate.links, r.root);
    if gate.Err? {
      return Err(DependencyAmbiguous(gate.error));
    }
    if gate.value.pending == [] {
      return Err(NotEligible);
    }
    var nodes := WalkClosure(e.walk.tasks, e.walk.links, r.root);
    if nodes.Err? {
      return Err(AmbiguousGraph(nodes.error));
    }
    var edges := EdgeSnapshot(e.edges.links, nodes.value.Keys);
    var owned := FirstOwned(nodes.value);
    if owned.Some? {
      return Err(if r.row.row.status == "review" then NotEligible else ActiveOwnership(owned.value));
    }
    var view := View(r.root, nodes.value, edges, e.roles.events, r.ref, None);
    var roles := NodeProvenance(view);
    if roles.Err? {
      return Err(Unconvergeable(roles.error));
    }
    var heads := MergeEvidence(r.ref, r.decision, r.issue);
    MergeEvidenceWhen(r.ref, r.decision, r.issue);
    if heads.None? {
      return Err(NotEligible);
    }
    var verifiedView := view.(log := e.verified.events, merged := heads);
    var verified := NodeProvenance(verifiedView);
    if verified.Err? {
      return Err(Unconvergeable(verified.error));
    }
    SameClassification(verifiedView, view, verified.value, roles.value);
    if verified.value != roles.value {
      return Err(GraphChanged);
    }
    return Ok(Snap(nodes.value, edges, multiset(gate.value.parents), verified.value, heads.value));
  }

  /** The checks repeated under the write lock. */
  method CheckLocked(r: Request, ghost e: Earlier, s: Snap, tasks: map<TaskId, Task>, links: seq<Link>, log: seq<Event>)
    returns (refusal: Option<Outcome>)
    requires DistinctIds(log) && Prevalidated(r, e)
    requires s.nodes == SeenNodes(r, e)
    requires s.edges == EdgeSnapshot(e.edges.links, s.nodes.Keys)
    requires s.parents == GateParents(e.gate.tasks, e.gate.links, r.root)
    requires MergeEvidence(r.ref, r.decision, r.issue) == Some(s.heads)
    requires Classified(SeenView(r, e, e.verified.events, Some(s.heads)), s.roles)
    ensures refusal.None? <==> Unchanged(r, e, tasks, links, log)
    ensures refusal.Some? ==> IsRefusal(refusal.value) && RefusedLocked(r, e, tasks, links, log, refusal.value)
    ensures refusal.None? ==> Classified(LockedView(r, tasks, links, log), s.roles)
  {
    hide AllConvergeable, GoodGraph, RoleOf, Classified, SameRoles, Closure, EdgeSnapshot, ParentsTerminal, MergeEvidence, Owned,
         DependencyGate.SortIds, DependencyGate.ParentStatuses, ParentRows;
    var nodes := WalkClosure(tasks, links, r.root);
    if nodes.Err? {
      return Some(AmbiguousGraph(nodes.error));
    }
    var edges := EdgeSnapshot(links, nodes.value.Keys);
    if nodes.value != s.nodes || edges != s.edges {
      return Some(GraphChanged);
    }
    if tasks[r.root].body != r.row.body || tasks[r.root].row.status != r.row.row.status {
      return Some(GraphChanged);
    }
    var gate := DependencyGate.InternalDependencyGate(tasks, links, r.root);
    if gate.Err? {
      return Some(DependencyAmbiguous(gate.error));
    }
    if multiset(gate.value.parents) != s.parents {
      return Some(GraphChanged);
    }
    // The source tests ownership once more here; on rows equal to the ones that
    // prevalidation found unowned the test cannot fail.
    var view := View(r.root, nodes.value, edges, log, r.ref, Some(s.heads));
    var roles := NodeProvenance(view);
    if roles.Err? {
      return Some(Unconvergeable(roles.error));
    }
    SameClassification(view, SeenView(r, e, e.verified.events, Some(s.heads)), roles.value, s.roles);
    if roles.value != s.roles {
      return Some(GraphChanged);
    }
    return None;
  }

  // ----------------------------------------------------------------- the write

  /** The transaction has rewritten and logged exactly the cards of `order`. */
  ghost predicate Written(board: Board, tasks: map<TaskId, Task>, links: seq<Link>, log: seq<Event>,
                          order: seq<TaskId>, archive: set<TaskId>, now: int)
    reads board
  {
    && (forall x :: x in order ==> x in tasks)
    && board.links == links
    && board.tasks == Rewritten(tasks, Ids(order), archive, now)
    && board.events == Logged(log, tasks, order, archive, now)
  }

  lemma RewriteOneMore(tasks: map<TaskId, Task>, order: seq<TaskId>, id: TaskId, archive: set<TaskId>, now: int)
    requires id in tasks && id !in order
    ensures var before := Rewritten(tasks, Ids(order), archive, now);
            && id in before && before[id] == tasks[id]
            && Rewritten(tasks, Ids(order + [id]), archive, now)
               == before[id := tasks[id].(row := if id in archive then ArchivedRow(tasks[id].row) else DoneRow(tasks[id].row, now))]
  {
    hide ArchivedRow, DoneRow;
    assert Ids(order + [id]) == Ids(order) + {id};
  }

  /** One guarded `UPDATE` and its event; `false` when the row no longer fits. */
  method WriteOne(board: Board, id: TaskId, status: string, archive: set<TaskId>, now: int,
                  ghost tasks: map<TaskId, Task>, ghost links: seq<Link>, ghost log: seq<Event>, ghost order: seq<TaskId>)
    returns (ok: bool)
    requires Written(board, tasks, links, log, order, archive, now)
    requires id !in order && id in tasks && tasks[id].row.status == status
    modifies board`tasks, board`events
    ensures ok <==> Unowned(tasks[id].row)
    ensures ok ==> Written(board, tasks, links, log, order + [id], archive, now)
    ensures !ok ==> board.tasks == old(board.tasks) && board.events == old(board.events)
  {
    hide NodePayload, AppendEvent, Rewritten;
    RewriteOneMore(tasks, order, id, archive, now);
    var task := board.tasks[id];
    if task.row.status != status || !Unowned(task.row) {
      return false;
    }
    var row := if id in archive then ArchivedRow(task.row) else DoneRow(task.row, now);
    board.tasks := board.tasks[id := task.(row := row)];
    board.events := AppendEvent(board.events, id, "github_pr_sync", NodePayload(status, id in archive), now);
    assert (order + [id])[..|order|] == order;
    return true;
  }

  /** Writes the cards of `ids`, stopping at one whose ownership columns are not null. */
  method WriteAll(board: Board, ids: set<TaskId>, nodes: map<TaskId, Row>, archive: set<TaskId>, now: int,
                  ghost tasks: map<TaskId, Task>, ghost links: seq<Link>, ghost log: seq<Event>, before: seq<TaskId>)
    returns (order: seq<TaskId>, failed: Option<TaskId>)
    requires Written(board, tasks, links, log, before, archive, now)
    requires Enumerates(before, Ids(before)) && forall x :: x in before ==> x !in ids
    requires forall id :: id in ids ==> id in nodes && id in tasks && tasks[id].row == nodes[id]
    modifies board`tasks, board`events
    ensures failed.None? <==> AllUnowned(tasks, ids)
    ensures failed.None? ==> Written(board, tasks, links, log, order, archive, now)
    ensures failed.None? ==> Enumerates(order, Ids(before) + ids)
  {
    hide Written, Rewritten, AppendEvent, Enumerates, NodePayload, Unowned;
    order, failed := before, None;
    var todo := ids;
    ghost var written: set<TaskId> := {};
    assert Ids(before) + written == Ids(before);
    while todo != {}
      invariant written !! todo && written + todo == ids
      invariant AllUnowned(tasks, written)
      invariant Written(board, tasks, links, log, order, archive, now)
      invariant Enumerates(order, Ids(before) + written)
    {
      var id :| id in todo;
      OneMoreWritten(order, Ids(before) + written, id);
      var ok := WriteOne(board, id, nodes[id].status, archive, now, tasks, links, log, order);
      if !ok {
        failed := Some(id);
        return;
      }
      assert Ids(before) + (written + {id}) == Ids(before) + written + {id};
      order, todo, written := order + [id], todo - {id}, written + {id};
    }
    assert written == ids;
  }

  /** `_attempt_terminal_merge_convergence`.  The board is the one that the write
      lock freezes; `e` holds the states that the earlier reads happened to see. */
  method Attempt(board: Board, r: Request, e: Earlier, dryRun: bool, now: int) returns (outcome: Outcome)
    requires LogsKeyed(e) && DistinctIds(board.events)
    modifies board`tasks, board`events
    ensures outcome.Predicted? <==> dryRun && Prevalidated(r, e)
    ensures outcome.Converged? <==>
              && !dryRun && Prevalidated(r, e)
              && Unchanged(r, e, old(board.tasks), old(board.links), old(board.events))
              && AllUnowned(old(board.tasks), ChangeSet(LockedView(r, old(board.tasks), old(board.links), old(board.events))))
    ensures outcome.RolledBack? <==>
              && !dryRun && Prevalidated(r, e)
              && Unchanged(r, e, old(board.tasks), old(board.links), old(board.events))
              && !AllUnowned(old(board.tasks), ChangeSet(LockedView(r, old(board.tasks), old(board.links), old(board.events))))
    ensures IsRefusal(outcome) ==>
              || RefusedBefore(r, e, outcome)
              || (!dryRun && Prevalidated(r, e) && RefusedLocked(r, e, old(board.tasks), old(board.links), old(board.events), outcome))
    ensures !IsRefusal(outcome) ==>
              && r.issue == Some(Completion.IssueClosed) && r.decision.desired == Some(Completion.Done) && r.decision.prs != []
              && (forall pr :: pr in r.decision.prs ==> pr.merged && pr.state == Completion.Closed && pr.baseBranch == r.ref.targetBranch)
              && r.row.row.status in {"todo", "review"}
              && forall id :: id in SeenNodes(r, e) ==> Free(SeenNodes(r, e)[id])
    ensures !outcome.Converged? ==> board.tasks == old(board.tasks) && board.events == old(board.events)
    ensures outcome.Converged? ==>
              var v := LockedView(r, old(board.tasks), old(board.links), old(board.events));
              && Enumerates(outcome.order, ChangeSet(v))
              && ChangeSet(v) <= old(board.tasks).Keys
              && board.tasks == Rewritten(old(board.tasks), ChangeSet(v), ArchiveSet(v), now)
              && board.events == Logged(old(board.events), old(board.tasks), outcome.order, ArchiveSet(v), now)
  {
    var snap := Prevalidate(r, e);
    if snap.Err? {
      return snap.error;
    }
    PrevalidatedWhen(r, e);
    hide Free, RefusedBefore, RefusedLocked;
    if dryRun {
      return Predicted;
    }
    var refusal := CheckLocked(r, e, snap.value, board.tasks, board.links, board.events);
    if refusal.Some? {
      return refusal.value;
    }
    outcome := WriteGraph(board, r, snap.value, now);
  }

  /** The three groups of updates inside the transaction, or its rollback. */
  method WriteGraph(board: Board, r: Request, s: Snap, now: int) returns (outcome: Outcome)
    requires GoodGraph(board.tasks, board.links, r.root)
    requires s.nodes == Closure(board.tasks, board.links, r.root)
    requires board.tasks[r.root].row.status == r.row.row.status
    requires MergeEvidence(r.ref, r.decision, r.issue) == Some(s.heads)
    requires Classified(LockedView(r, board.tasks, board.links, board.events), s.roles)
    modifies board`tasks, board`events
    ensures var v := LockedView(r, old(board.tasks), old(board.links), old(board.events));
            if AllUnowned(old(board.tasks), ChangeSet(v))
            then
              && outcome.Converged?
              && Enumerates(outcome.order, ChangeSet(v))
              && ChangeSet(v) <= old(board.tasks).Keys
              && board.tasks == Rewritten(old(board.tasks), ChangeSet(v), ArchiveSet(v), now)
              && board.events == Logged(old(board.events), old(board.tasks), outcome.order, ArchiveSet(v), now)
            else outcome.RolledBack? && board.tasks == old(board.tasks) && board.events == old(board.events)
  {
    hide *;
    var tasks, links, log := board.tasks, board.links, board.events;
    var terminalize := set id | id in s.roles && s.roles[id].Stale?;
    var archive := set id | id in s.roles && s.roles[id].Reviewer?;
    RoleSets(r, tasks, links, log, s, terminalize, archive);
    UnownedParts(tasks, terminalize, archive, r.root);
    NothingWritten(board, archive, now);
    var order, failed := WriteAll(board, terminalize, s.nodes, archive, now, tasks, links, log, []);
    assert {} + terminalize == terminalize;
    if failed.None? {
      WrittenIds(order, terminalize);
      order, failed := WriteAll(board, archive, s.nodes, archive, now, tasks, links, log, order);
    }
    if failed.Some? {
      board.tasks, board.events := tasks, log;
      return RolledBack(failed.value);
    }
    WrittenIds(order, terminalize + archive);
    GuardPasses(r, tasks, links, log, s, terminalize + archive, archive, now);
    WrittenBoard(board, tasks, links, log, order, archive, now);
    DependencyGate.GuardAgreesWithGate(board.tasks, links, r.root);
    var guard := DependencyGate.GuardCount(board.tasks, links, r.root);
    assert guard == 0;
    var ok := WriteOne(board, r.root, r.row.row.status, archive, now, tasks, links, log, order);
    if guard != 0 || !ok {
      board.tasks, board.events := tasks, log;
      return RolledBack(r.root);
    }
    OneMoreWritten(order, terminalize + archive, r.root);
    WrittenBoard(board, tasks, links, log, order + [r.root], archive, now);
    WrittenIds(order + [r.root], terminalize + archive + {r.root});
    return Converged(order + [r.root]);
  }

  lemma NothingWritten(board: Board, archive: set<TaskId>, now: int)
    ensures Written(board, board.tasks, board.links, board.events, [], archive, now)
    ensures Ids([]) == {} && Enumerates([], {})
  {}

  lemma WrittenIds(order: seq<TaskId>, ids: set<TaskId>)
    requires Enumerates(order, ids)
    ensures Ids(order) == ids && Enumerates(order, Ids(order))
    ensures forall x :: x in order <==> x in ids
  {}

  lemma OneMoreWritten(order: seq<TaskId>, ids: set<TaskId>, id: TaskId)
    requires Enumerates(order, ids) && id !in ids
    ensures id !in order && Enumerates(order + [id], ids + {id})
  {}

  lemma WrittenBoard(board: Board, tasks: map<TaskId, Task>, links: seq<Link>, log: seq<Event>,
                     order: seq<TaskId>, archive: set<TaskId>, now: int)
    requires Written(board, tasks, links, log, order, archive, now)
    ensures forall x :: x in order ==> x in tasks
    ensures board.tasks == Rewritten(tasks, Ids(order), archive, now)
    ensures board.events == Logged(log, tasks, order, archive, now)
  {}

  lemma UnownedParts(tasks: map<TaskId, Task>, terminalize: set<TaskId>, archive: set<TaskId>, root: TaskId)
    requires root in tasks
    ensures AllUnowned(tasks, terminalize + archive + {root})
            <==> AllUnowned(tasks, terminalize) && AllUnowned(tasks, archive) && Unowned(tasks[root].row)
  {}

  lemma RoleSets(r: Request, tasks: map<TaskId, Task>, links: seq<Link>, log: seq<Event>, s: Snap,
                 terminalize: set<TaskId>, archive: set<TaskId>)
    requires GoodGraph(tasks, links, r.root) && s.nodes == Closure(tasks, links, r.root)
    requires Classified(LockedView(r, tasks, links, log), s.roles)
    requires terminalize == set id | id in s.roles && s.roles[id].Stale?
    requires archive == set id | id in s.roles && s.roles[id].Reviewer?
    ensures var v := LockedView(r, tasks, links, log);
            && terminalize == TerminalizeSet(v) && archive == ArchiveSet(v)
            && ChangeSet(v) == terminalize + archive + {r.root}
            && ChangeSet(v) <= tasks.Keys
    ensures r.root in tasks
    ensures terminalize !! archive && r.root !in terminalize + archive
    ensures forall id :: id in terminalize + archive ==> id in s.nodes && id in tasks && tasks[id].row == s.nodes[id]
  {
    hide AllConvergeable, Provenance.EvidenceOf, Provenance.CreationOf, NoDanglingAbove, AcyclicAbove, EdgeSnapshot, MergeEvidence, Reaches;
  }

  lemma GuardPasses(r: Request, tasks: map<TaskId, Task>, links: seq<Link>, log: seq<Event>, s: Snap,
                    written: set<TaskId>, archive: set<TaskId>, now: int)
    requires GoodGraph(tasks, links, r.root) && s.nodes == Closure(tasks, links, r.root)
    requires Classified(LockedView(r, tasks, links, log), s.roles)
    requires var v := LockedView(r, tasks, links, log);
             written == TerminalizeSet(v) + ArchiveSet(v) && archive == ArchiveSet(v)
    ensures ParentsTerminal(Rewritten(tasks, written, archive, now), links, r.root)
  {
    var v := LockedView(r, tasks, links, log);
    forall p | Link(p, r.root) in links ensures TerminalTask(Rewritten(tasks, written, archive, now), p) {
      ReachesSelf(links, r.root);
      ReachesParent(links, r.root, r.root, p);
      assert p != r.root by {
        ReachesSelf(links, p);
        assert Reaches(links, p, p) && !OnCycle(links, r.root);
      }
      EveryNodeHasOneRole(v, p);
    }
  }
}
