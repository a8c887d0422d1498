/** What a converged pass leaves behind, for every board and every interference. */
module ConvergenceTheorems {
  import opened Prelude
  import opened EventLog
  import opened KanbanBoard
  import opened Graph
  import opened NodeRoles
  import opened TerminalConvergence
  import Provenance
  import Completion

  /** The board a converged pass leaves, as `Attempt` promises it. */
  ghost predicate ConvergedBoard(r: Request, e: Earlier, tasks: map<TaskId, Task>, links: seq<Link>, log: seq<Event>,
                                 order: seq<TaskId>, now: int, after: map<TaskId, Task>, grown: seq<Event>) {
    var v := LockedView(r, tasks, links, log);
    && Prevalidated(r, e) && Unchanged(r, e, tasks, links, log)
    && ChangeSet(v) <= tasks.Keys && Enumerates(order, ChangeSet(v))
    && after == Rewritten(tasks, ChangeSet(v), ArchiveSet(v), now)
    && grown == Logged(log, tasks, order, ArchiveSet(v), now)
  }

  /** The status of an ancestor decides what becomes of it. */
  lemma ChangedByStatus(v: View, x: TaskId)
    requires AllConvergeable(v) && v.root in v.nodes
    ensures v.root in ChangeSet(v) && v.root !in ArchiveSet(v)
    ensures x in ChangeSet(v) && x != v.root ==> x in v.nodes
    ensures x in v.nodes && x != v.root ==>
              && (x !in ChangeSet(v) <==> v.nodes[x].status in {"done", "archived"})
              && (x in ArchiveSet(v) <==> v.nodes[x].status in {"todo", "review", "ready", "scheduled"})
              && (x in ChangeSet(v) - ArchiveSet(v) <==> v.nodes[x].status == "blocked")
  {
    hide AllConvergeable, Convergeable;
    KnownStatus(v, v.root);
    hide RoleOf;
    if x in v.nodes && x != v.root {
      EveryNodeHasOneRole(v, x);
      KnownStatus(v, x);
    }
  }

  lemma KnownStatus(v: View, x: TaskId)
    requires AllConvergeable(v) && x in v.nodes
    ensures x != v.root ==> v.nodes[x].status in TERMINAL + TERMINALIZE + ARCHIVE
  {
    hide StaleDeveloper, StaleReviewer, BlockedIds;
    assert Convergeable(v, x);
  }

  /** Every ancestor ends terminal and the root done; a card that was already
      terminal, or that is no ancestor, keeps its row. */
  lemma WholeClosureIsTerminal(r: Request, e: Earlier, tasks: map<TaskId, Task>, links: seq<Link>, log: seq<Event>,
                               order: seq<TaskId>, now: int, after: map<TaskId, Task>, grown: seq<Event>, x: TaskId)
    requires ConvergedBoard(r, e, tasks, links, log, order, now, after, grown)
    ensures after.Keys == tasks.Keys
    ensures r.root in after && after[r.root].row.status == "done"
    ensures Reaches(links, r.root, x) ==> TerminalTask(after, x)
    ensures x in tasks && !Reaches(links, r.root, x) ==> after[x] == tasks[x]
    ensures TerminalTask(tasks, x) && x != r.root ==> after[x] == tasks[x]
    ensures x in tasks && after[x] != tasks[x] && x != r.root ==>
              if tasks[x].row.status == "blocked" then after[x].row.status == "done"
              else after[x].row.status == "archived" && tasks[x].row.status in {"todo", "review", "ready", "scheduled"}
  {
    hide Provenance.EvidenceOf, Provenance.CreationOf, DirectParents, OpenParents, BlockedIds, EdgeSnapshot, MergeEvidence,
         Prevalidated, AcyclicAbove, SameRoles, GateParents, AllConvergeable, RoleOf, ChangeSet, ArchiveSet;
    var v := LockedView(r, tasks, links, log);
    ReachesSelf(links, r.root);
    ChangedByStatus(v, x);
  }

  /** The round's rework event belongs to the card's Issue, and the request it names
      is one of the merged ones, still at the head the round started from. */
  ghost predicate MergedRound(ev: Event, ref: GithubTaskRef, pr: Completion.PullRequest) {
    && ev.kind in {"github_pr_rework", "github_pr_rework_retry"} && ev.payload.Parsed? && ev.payload.value.Object?
    && var f := ev.payload.value.fields;
       && Get(f, "repository") == Str(ref.repository) && PyEq(Get(f, "issue_number"), Int(ref.issueNumber))
       && Get(f, "reason") == Str("agent_rework") && Get(f, "new_status") == Str("ready")
       && Get(f, "merge_authority") == Str("human") && Get(f, "auto_merge") == Bool(false)
       && (Get(f, "source") == Str("github") || Get(f, "source") == Str("github_edge_rework_recovery"))
       && Get(f, "pr_number") == Int(pr.number) && pr.number > 0
       && Get(f, "rework_round").Int? && Get(f, "rework_round").i > 0
       && Get(f, "head_sha").Str? && Provenance.Folded(Get(f, "head_sha").s) == Provenance.Folded(pr.headSha)
       && Provenance.IsFullSha(Get(f, "head_sha").s)
  }

  /** The kinds of event after which a round no longer stands, attention among them. */
  predicate EndsRound(kind: string) {
    kind in {"created", "changes_requested", "github_pr_rework", "github_pr_sync", "github_pr_rework_retry",
             "github_pr_rework_projection_failure", "github_pr_superseded", "github_blocked_resolved", "github_blocked_projection",
             "blocked", "completed", "status", "promoted", "unblocked", "reclaimed", "scheduled", "archived",
             "github_pr_rework_attention"}
  }

  lemma EndingKinds(kind: string)
    ensures EndsRound(kind) <==> kind in Provenance.REWORK_GOVERNING_KINDS + {Provenance.ATTENTION_KIND}
  {}

  /** Whatever converges as stale rework was opened for a request that merged at the
      very head its round started from, and nothing governs or holds the card since. */
  lemma StaleRoundsWereMerged(r: Request, e: Earlier, tasks: map<TaskId, Task>, links: seq<Link>, log: seq<Event>, id: TaskId)
    requires Prevalidated(r, e) && Unchanged(r, e, tasks, links, log)
    requires id in TerminalizeSet(LockedView(r, tasks, links, log)) && id != r.root
    ensures id in tasks && tasks[id].row.status == "blocked"
    ensures exists ev, pr ::
              && ev in log && ev.taskId == id && pr in r.decision.prs && MergedRound(ev, r.ref, pr)
              && forall x :: x in log && x.taskId == id && EndsRound(x.kind) ==> !Later(x, ev)
  {
    hide GoodGraph, Prevalidated, SameRoles, DirectParents, EdgeSnapshot, GateParents, MergeEvidence, Provenance.CreationOf,
         Provenance.EvidenceOf, Provenance.ValidReworkPayload;
    var v := LockedView(r, tasks, links, log);
    assert Convergeable(v, id) && StaleDeveloper(v, id);
    MergeEvidenceWhen(r.ref, r.decision, r.issue);
    PrevalidatedWhen(r, e);
    EvidenceIsMerged(log, id, r.ref, v.merged.value);
    var ev := Newest(log, id, Provenance.REWORK_GOVERNING_KINDS + {Provenance.ATTENTION_KIND}).value;
    var n := Get(ev.payload.value.fields, "pr_number").i;
    var pr :| pr in r.decision.prs && pr.number == n && pr.headSha == v.merged.value[n];
    assert MergedRound(ev, r.ref, pr);
    forall x | x in log && x.taskId == id && EndsRound(x.kind) ensures !Later(x, ev) {
      EndingKinds(x.kind);
    }
    hide EndsRound;
  }

  lemma EvidenceIsMerged(log: seq<Event>, id: TaskId, ref: GithubTaskRef, heads: map<int, string>)
    requires Provenance.EvidenceOf(log, id, ref, Some(heads)).StaleRework?
    ensures Newest(log, id, Provenance.REWORK_GOVERNING_KINDS + {Provenance.ATTENTION_KIND}).Some?
    ensures var ev := Newest(log, id, Provenance.REWORK_GOVERNING_KINDS + {Provenance.ATTENTION_KIND}).value;
            && ev.kind in {"github_pr_rework", "github_pr_rework_retry"} && ev.payload.Parsed? && ev.payload.value.Object?
            && var f := ev.payload.value.fields;
               && Get(f, "repository") == Str(ref.repository) && PyEq(Get(f, "issue_number"), Int(ref.issueNumber))
               && Get(f, "reason") == Str("agent_rework") && Get(f, "new_status") == Str("ready")
               && Get(f, "merge_authority") == Str("human") && Get(f, "auto_merge") == Bool(false)
               && (Get(f, "source") == Str("github") || Get(f, "source") == Str("github_edge_rework_recovery"))
               && Get(f, "rework_round").Int? && Get(f, "rework_round").i > 0
               && Get(f, "pr_number").Int? && Get(f, "pr_number").i in heads && Get(f, "pr_number").i > 0
               && Get(f, "head_sha").Str? && Provenance.IsFullSha(Get(f, "head_sha").s)
               && Provenance.Folded(Get(f, "head_sha").s) == Provenance.Folded(heads[Get(f, "pr_number").i])
  {
    hide Provenance.Folded, Provenance.IsFullSha;
  }

  ghost predicate Records(event: Event, id: TaskId, previous: string, archived: bool, now: int) {
    && event.taskId == id && event.kind == "github_pr_sync" && event.createdAt == now
    && event.payload.Parsed? && event.payload.value.Object?
    && var f := event.payload.value.fields;
       && Get(f, "previous_status") == Str(previous) && Get(f, "source") == Str("github") && Get(f, "issue_state") == Str("closed")
       && Get(f, "merge_authority") == Str("human") && Get(f, "auto_merge") == Bool(false)
       && if archived
          then Get(f, "new_status") == Str("archived") && Get(f, "reason") == Str("terminal_merge_convergence_archived_unstarted")
          else Get(f, "new_status") == Str("done") && Get(f, "reason") == Str("terminal_merge_convergence")
  }

  lemma NodePayloadTells(previous: string, archived: bool, event: Event)
    requires event.kind == "github_pr_sync" && event.payload == Parsed(Object(NodePayload(previous, archived)))
    ensures Records(event, event.taskId, previous, archived, event.createdAt)
  {}

  /** The new events are one for each changed card, in the order it was written,
      each naming the status the card had and the one it got. */
  lemma {:induction false} OneEventForEachCard(log: seq<Event>, before: map<TaskId, Task>, order: seq<TaskId>, archive: set<TaskId>, now: int)
    requires forall x :: x in order ==> x in before
    ensures var grown := Logged(log, before, order, archive, now);
            && log <= grown && |grown| == |log| + |order|
            && (DistinctIds(log) ==> DistinctIds(grown))
            && forall i :: 0 <= i < |order| ==>
                 Records(grown[|log| + i], order[i], before[order[i]].row.status, order[i] in archive, now)
  {
    hide NodePayload, DistinctIds, Records;
    if order != [] {
      var n := |order| - 1;
      var shorter := Logged(log, before, order[..n], archive, now);
      OneEventForEachCard(log, before, order[..n], archive, now);
      var grown := Logged(log, before, order, archive, now);
      forall i | 0 <= i < |order|
        ensures Records(grown[|log| + i], order[i], before[order[i]].row.status, order[i] in archive, now)
      {
        if i < n {
          assert order[..n][i] == order[i] && grown[|log| + i] == shorter[|log| + i];
        } else {
          NodePayloadTells(before[order[n]].row.status, order[n] in archive, grown[|log| + n]);
        }
      }
    }
  }

  /** A later pass over the converged board, even with a stale copy of the card,
      is not eligible, and so writes nothing. */
  lemma SecondPassIsIdle(r: Request, e: Earlier, tasks: map<TaskId, Task>, links: seq<Link>, log: seq<Event>,
                         order: seq<TaskId>, now: int, after: map<TaskId, Task>, grown: seq<Event>,
                         again: Request, later: Earlier)
    requires ConvergedBoard(r, e, tasks, links, log, order, now, after, grown)
    requires again.root == r.root && later.gate == Snapshot(after, links, grown)
    ensures !Prevalidated(again, later)
  {
    hide Unchanged, AllConvergeable, RoleOf, GoodGraph, EdgeSnapshot, MergeEvidence, ConvergedBoard, Rewritten, TerminalTask;
    forall p | Link(p, r.root) in links ensures TerminalTask(after, p) {
      ReachesSelf(links, r.root);
      ReachesParent(links, r.root, r.root, p);
      WholeClosureIsTerminal(r, e, tasks, links, log, order, now, after, grown, p);
    }
    assert ParentsTerminal(after, links, r.root);
  }

  /** With no other writer, what was prevalidated still holds under the lock; so
      the pass then fails only on a column that is neither null nor truthy. */
  lemma QuietPassIsUnchanged(r: Request, board: Snapshot)
    requires var e := Earlier(board, board, board, board, board);
             Prevalidated(r, e) && r.row == board.tasks[r.root]
    ensures Unchanged(r, Earlier(board, board, board, board, board), board.tasks, board.links, board.events)
  {
    hide AllConvergeable, RoleOf, MergeEvidence, Reaches, EdgeSnapshot;
  }

  /** A column that Python takes for empty and SQL does not take for null. */
  predicate FalsyColumn(row: Row) {
    row.claimLock == Some("") || row.workerPid == Some(0) || row.currentRunId == Some(0)
  }

  /** Once the locked checks pass, the writes all take effect exactly when no card
      to be changed has such a column; nothing else can roll the pass back. */
  lemma RollbackNeedsFalsyColumn(r: Request, e: Earlier, tasks: map<TaskId, Task>, links: seq<Link>, log: seq<Event>)
    requires Prevalidated(r, e) && Unchanged(r, e, tasks, links, log)
    ensures var v := LockedView(r, tasks, links, log);
            && ChangeSet(v) <= tasks.Keys
            && (AllUnowned(tasks, ChangeSet(v)) <==> forall id :: id in ChangeSet(v) ==> !FalsyColumn(tasks[id].row))
  {
    hide RoleOf, AllConvergeable, SameRoles, EdgeSnapshot, MergeEvidence, ParentsTerminal, GateParents, Reaches, AcyclicAbove, NoDanglingAbove;
    var v := LockedView(r, tasks, links, log);
    ReachesSelf(links, r.root);
    forall id | id in ChangeSet(v) ensures id in tasks && (Unowned(tasks[id].row) <==> !FalsyColumn(tasks[id].row)) {
      assert id in SeenNodes(r, e) && !Owned(SeenNodes(r, e)[id]);
      assert tasks[id].row == SeenNodes(r, e)[id];
    }
  }
}
