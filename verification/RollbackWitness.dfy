/** A board whose convergence pass is rolled back although nothing moved: its root
    carries a worker PID of zero, which Python takes for none and SQL does not. */
module RollbackWitness {
  import opened Prelude
  import opened EventLog
  import opened KanbanBoard
  import opened Graph
  import opened NodeRoles
  import opened TerminalConvergence
  import opened Provenance
  import ConvergenceTheorems
  import Completion

  const REF := GithubTaskRef("o/r", 1, "main")

  function Sha(): (sha: string) { seq(40, _ => 'a') }

  const ROOT: TaskId := "root"
  const DEV: TaskId := "dev"
  const OLD: TaskId := "old"

  function RowWith(status: string, pid: Option<int>): (row: Row) {
    Row(status, None, None, None, pid, None, None, 0, None)
  }

  function Tasks(): (tasks: map<TaskId, Task>) {
    map[ROOT := Task(RowWith("todo", Some(0)), ""),
    DEV := Task(RowWith("blocked", None), ""),
    OLD := Task(RowWith("done", None), "")]
  }

  function Links(): (links: seq<Link>) { [Link(DEV, ROOT), Link(OLD, DEV)] }

  function Created(): (e: Event) {
    Event(1, DEV, "created", Parsed(Object(map["assignee" := Str("kanban-developer"), "parents" := Array([Str(OLD)])])), 1)
  }

  function RoundPayload(): (payload: map<string, Json>) {
    map["repository" := Str("o/r"), "issue_number" := Int(1), "reason" := Str("agent_rework"), "merge_authority" := Str("human"),
    "auto_merge" := Bool(false), "source" := Str("github"), "new_status" := Str("ready"), "pr_number" := Int(7),
    "rework_round" := Int(1), "head_sha" := Str(Sha())]
  }

  function ReworkEvent(): (e: Event) { Event(2, DEV, "github_pr_rework", Parsed(Object(RoundPayload())), 2) }

  function Log(): (log: seq<Event>) { [Created(), ReworkEvent()] }

  function MergedPr(): (pr: Completion.PullRequest) { Completion.PullRequest(7, Completion.Closed, true, "main", Sha(), "b", None, {}) }

  function ThePass(): (r: Request) {
    Request(ROOT, Tasks()[ROOT], REF, _ => true,
            Completion.Decision(Some(Completion.Done), Completion.AllLinkedPrsMerged, {7}, [MergedPr()]),
            Some(Completion.IssueClosed))
  }

  function TheBoard(): (board: Snapshot) { Snapshot(Tasks(), Links(), Log()) }

  function QuietReads(): (seen: Earlier) { Earlier(TheBoard(), TheBoard(), TheBoard(), TheBoard(), TheBoard()) }

  lemma WholeAndAcyclic()
    ensures GoodGraph(Tasks(), Links(), ROOT)
    ensures Closure(Tasks(), Links(), ROOT) == RowsOf(Tasks())
  {
    var all := {ROOT, DEV, OLD};
    assert Link(DEV, ROOT) in Links() && Link(OLD, DEV) in Links();
    ReachesSelf(Links(), ROOT);
    ReachesParent(Links(), ROOT, ROOT, DEV);
    ReachesParent(Links(), ROOT, DEV, OLD);
    assert ParentClosed(Links(), all);
    forall x | Reaches(Links(), ROOT, x) ensures x in all { ClosedHoldsReachable(Links(), all, ROOT, x); }
    var order := [OLD, DEV, ROOT];
    assert order[..0] == [] && order[..1] == [OLD] && order[..2] == [OLD, DEV];
    assert Topological(Links(), order);
    forall x | Reaches(Links(), ROOT, x) ensures !OnCycle(Links(), x) {
      assert x in [OLD, DEV, ROOT];
      TopologicalIsAcyclic(Links(), [OLD, DEV, ROOT], x);
    }
  }

  lemma TaskRows()
    ensures ROOT != DEV && ROOT != OLD && DEV != OLD
    ensures RowsOf(Tasks()).Keys == {ROOT, DEV, OLD} && Tasks().Keys == {ROOT, DEV, OLD}
    ensures RowsOf(Tasks())[ROOT] == RowWith("todo", Some(0)) && RowsOf(Tasks())[DEV] == RowWith("blocked", None)
    ensures RowsOf(Tasks())[OLD] == RowWith("done", None)
  {}

  lemma ParentRowsOfWitness()
    ensures EdgeSnapshot(Links(), RowsOf(Tasks()).Keys) == EdgeSnapshot(Links(), {ROOT, DEV, OLD})
    ensures DirectParents(EdgeSnapshot(Links(), {ROOT, DEV, OLD}), DEV) == {OLD}
  {
    TaskRows();
    hide Tasks, EdgesInto;
    var edges := EdgeSnapshot(Links(), {ROOT, DEV, OLD});
    assert forall p :: p in DirectParents(edges, DEV) <==> Link(p, DEV) in Links();
  }

  lemma RoundIsValid(merged: Option<map<int, string>>)
    requires merged.Some? ==> 7 in merged.value && merged.value[7] == Sha()
    ensures ValidReworkPayload(ReworkEvent().payload, REF, merged)
  {
    assert IsFullSha(Sha());
    hide Folded, IsFullSha;
  }

  lemma RoundIsEvidence(merged: Option<map<int, string>>)
    requires merged.Some? ==> 7 in merged.value && merged.value[7] == Sha()
    ensures EvidenceOf(Log(), DEV, REF, merged) == StaleRework("github_pr_rework", 7, 1, Sha())
  {
    RoundIsValid(merged);
    RoundIsNewest();
    RoundReads();
    hide ValidReworkPayload, RoundEvidence, Log, ReworkEvent, Newest;
  }

  lemma RoundReads()
    ensures RoundEvidence(ReworkEvent()) == StaleRework("github_pr_rework", 7, 1, Sha()) && ReworkEvent().kind == "github_pr_rework"
  {
    hide Sha;
  }

  lemma RoundIsNewest()
    ensures Newest(Log(), DEV, REWORK_GOVERNING_KINDS + {ATTENTION_KIND}) == Some(ReworkEvent())
  {
    hide RoundPayload;
    assert ReworkEvent() in Log();
    NewestIsUnique(Log(), DEV, REWORK_GOVERNING_KINDS + {ATTENTION_KIND}, ReworkEvent());
  }

  lemma DevWasCreated()
    ensures CreationOf(Log(), DEV) == Some(Creation("kanban-developer", {OLD}))
  {
    var c := Creation("kanban-developer", {OLD});
    assert Created() in Log() && Concerns(Created(), DEV, {"created"}) && Concerns(Created(), DEV, CREATION_KINDS);
    assert Get(Fields(Created().payload).value, "parents") == Array([Str(OLD)]);
    assert GoodCreated(Created());
    assert forall e :: e in Log() && Concerns(e, DEV, CREATION_KINDS) ==> e == Created();
    forall p ensures p in c.parents <==> exists e :: e in Log() && Concerns(e, DEV, CREATION_KINDS) && Records(e, p) {
      assert p == OLD <==> Records(Created(), p);
    }
    assert IsCreationOf(Log(), DEV, c);
    CreationIsUnique(Log(), DEV, c, CreationOf(Log(), DEV).value);
  }

  /** Three cards, one of them stale rework under a finished one, are convergeable. */
  lemma StaleChain(v: View, dev: TaskId, fin: TaskId, evidence: ReworkEvidence)
    requires v.root != dev && v.root != fin && dev != fin && v.nodes.Keys == {v.root, dev, fin}
    requires v.nodes[dev].status == "blocked" && v.nodes[fin].status == "done"
    requires DirectParents(v.edges, dev) == {fin} && evidence.StaleRework?
    requires EvidenceOf(v.log, dev, v.ref, v.merged) == evidence
    requires CreationOf(v.log, dev) == Some(Creation("kanban-developer", {fin}))
    ensures AllConvergeable(v)
    ensures RoleOf(v, v.root) == IntakeRoot && RoleOf(v, fin) == AlreadyTerminal("done") && RoleOf(v, dev) == Stale(evidence)
  {
    hide EvidenceOf, CreationOf, DirectParents, StaleReviewer;
    assert StaleDeveloper(v, dev);
    hide StaleDeveloper;
    forall id | id in v.nodes ensures Convergeable(v, id) {
      assert id in {v.root, dev, fin};
    }
  }

  function WitnessView(merged: Option<map<int, string>>): (v: View) {
    View(ROOT, RowsOf(Tasks()), EdgeSnapshot(Links(), RowsOf(Tasks()).Keys), Log(), REF, merged)
  }

  lemma ViewIsConvergeable(merged: Option<map<int, string>>)
    requires merged.Some? ==> 7 in merged.value && merged.value[7] == Sha()
    ensures var v := WitnessView(merged);
            && AllConvergeable(v)
            && ROOT in v.nodes && RoleOf(v, ROOT) == IntakeRoot && OLD in v.nodes && RoleOf(v, OLD) == AlreadyTerminal("done")
            && DEV in v.nodes && RoleOf(v, DEV) == Stale(StaleRework("github_pr_rework", 7, 1, Sha()))
  {
    hide AllConvergeable, RoleOf, EvidenceOf, CreationOf, EdgeSnapshot, DirectParents, RowsOf;
    RoundIsEvidence(merged);
    DevWasCreated();
    TaskRows();
    ParentRowsOfWitness();
    hide Tasks, Log, Links, Sha;
    StaleChain(WitnessView(merged), DEV, OLD, StaleRework("github_pr_rework", 7, 1, Sha()));
  }

  /** The gate sees a parent that is not terminal, and no dangling link. */
  lemma GateIsPending()
    ensures !ParentsTerminal(Tasks(), Links(), ROOT) && forall p :: Link(p, ROOT) in Links() ==> p in Tasks()
  {
    assert Link(DEV, ROOT) in Links() && !TerminalTask(Tasks(), DEV);
  }

  lemma NoneOwned()
    ensures forall id :: id in RowsOf(Tasks()) ==> !Owned(RowsOf(Tasks())[id])
  {
    TaskRows();
    hide Tasks, RowsOf;
  }

  lemma SameRolesForBoth()
    ensures SameRoles(WitnessView(Some(map[7 := Sha()])), WitnessView(None))
  {
    hide RoleOf, AllConvergeable, EdgeSnapshot, RowsOf;
    ViewIsConvergeable(None);
    ViewIsConvergeable(Some(map[7 := Sha()]));
    TaskRows();
    hide Tasks, Log, Links, Sha;
  }

  lemma MergedHeads()
    ensures MergeEvidence(REF, ThePass().decision, ThePass().issue) == Some(map[7 := Sha()])
  {
    assert HeadsOf([MergedPr()]) == map[7 := Sha()];
  }

  lemma PassIsPrevalidated()
    ensures Prevalidated(ThePass(), QuietReads()) && LogsKeyed(QuietReads()) && DistinctIds(Log())
  {
    hide GoodGraph, Closure, MergeEvidence, AllConvergeable, EdgeSnapshot, SameRoles, ParentsTerminal, Owned, RowsOf, RoleOf, Tasks, Log, Links, Sha;
    WholeAndAcyclic();
    MergedHeads();
    GateIsPending();
    NoneOwned();
    ViewIsConvergeable(None);
    ViewIsConvergeable(Some(map[7 := Sha()]));
    SameRolesForBoth();
    LogIsKeyed();
    RootIsEligible();
  }

  lemma LogIsKeyed()
    ensures DistinctIds(Log())
  {
    hide RoundPayload;
  }

  lemma RootIsEligible()
    ensures ROOT in Tasks() && Tasks()[ROOT].row.status in ROOT_STATUSES
  {}

  lemma RootIsFalsy()
    ensures ROOT in Tasks() && ConvergenceTheorems.FalsyColumn(Tasks()[ROOT].row)
  {}

  /** The pass is prevalidated, finds nothing changed under the lock, and is rolled back. */
  lemma RolledBackAlthoughUnchanged()
    ensures Prevalidated(ThePass(), QuietReads()) && Unchanged(ThePass(), QuietReads(), Tasks(), Links(), Log())
    ensures !AllUnowned(Tasks(), ChangeSet(LockedView(ThePass(), Tasks(), Links(), Log())))
    ensures LogsKeyed(QuietReads()) && DistinctIds(Log())
  {
    hide *;
    PassIsPrevalidated();
    RootIsFalsy();
    QuietWitness();
  }

  lemma QuietWitness()
    requires Prevalidated(ThePass(), QuietReads()) && ROOT in Tasks() && ConvergenceTheorems.FalsyColumn(Tasks()[ROOT].row)
    ensures Unchanged(ThePass(), QuietReads(), Tasks(), Links(), Log())
    ensures !AllUnowned(Tasks(), ChangeSet(LockedView(ThePass(), Tasks(), Links(), Log())))
  {
    hide Prevalidated, Unchanged, AllUnowned, Tasks, Links, Log, Closure, MergeEvidence, EdgeSnapshot, RoleOf;
    ConvergenceTheorems.QuietPassIsUnchanged(ThePass(), TheBoard());
    ConvergenceTheorems.RollbackNeedsFalsyColumn(ThePass(), QuietReads(), Tasks(), Links(), Log());
    assert ROOT in ChangeSet(LockedView(ThePass(), Tasks(), Links(), Log()));
  }
}
