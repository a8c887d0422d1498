/** One classic sync pass over a card: dependency gate, verdict, projection.
    What a pass may still change, and what survives over runs of passes. */
module SyncPass {
  import opened Prelude
  import opened EventLog
  import opened KanbanBoard
  import C = Completion
  import DependencyGate
  import Projection
  import SyncContext

  /** A logged transition to done on merge evidence, or on its preservation. */
  predicate IsDoneEvidence(e: Event, id: TaskId) {
    && e.taskId == id && e.kind == "github_pr_sync" && Fields(e.payload).Some?
    && var f := Fields(e.payload).value;
       && Get(f, "desired_status") == Str("done")
       && Get(f, "reason") in {Str("all_linked_prs_merged"), Str("authoritative_done_preserved")}
       && Get(f, "authoritative") == Bool(true)
  }

  /** `_has_prior_authoritative_done`. */
  predicate HasPriorDone(log: seq<Event>, id: TaskId) {
    exists e :: e in log && IsDoneEvidence(e, id)
  }

  /** A completion is on record exactly when some sync event of the card tells of
      one, authoritatively, on merges or on their preservation. */
  lemma PriorDoneWhen(log: seq<Event>, id: TaskId)
    ensures HasPriorDone(log, id) <==>
              exists e :: e in log && Completes(e, id)
  {
    forall e ensures Completes(e, id) <==> IsDoneEvidence(e, id) {}
  }

  ghost predicate Completes(e: Event, id: TaskId) {
    && e.taskId == id && e.kind == "github_pr_sync"
    && e.payload.Parsed? && e.payload.value.Object?
    && var f := e.payload.value.fields;
       && "desired_status" in f && f["desired_status"] == Str("done")
       && "authoritative" in f && f["authoritative"] == Bool(true)
       && "reason" in f && (f["reason"] == Str("all_linked_prs_merged") || f["reason"] == Str("authoritative_done_preserved"))
  }

  const SUPERSEDE_KINDS: set<string> := {"github_pr_superseded", "github_pr_supersede"}

  predicate IsSupersedeEvidence(e: Event, id: TaskId, ref: GithubTaskRef) {
    && e.taskId == id && e.kind in SUPERSEDE_KINDS && Fields(e.payload).Some?
    && var f := Fields(e.payload).value;
       && PyEq(Get(f, "repository"), Str(ref.repository)) && PyEq(Get(f, "issue_number"), Int(ref.issueNumber))
       && Get(f, "new_status") == Str("ready") && Get(f, "reason") == Str("explicit_pr_superseded")
       && Get(f, "superseded") == Bool(true)
       && PositiveInt(Get(f, "pr_number")) && PositiveInt(Get(f, "signal_comment_id"))
  }

  /** `_explicit_superseded_pr_numbers`. */
  function SupersededPrs(log: seq<Event>, id: TaskId, ref: GithubTaskRef): (numbers: set<int>) {
    set e | e in log && IsSupersedeEvidence(e, id, ref) && Get(Fields(e.payload).value, "pr_number").Int?
      :: Get(Fields(e.payload).value, "pr_number").i
  }

  /** The verdict that a pass acts on: an earlier done outlives a failed search for
      PRs, and durable supersede evidence is filtered out last. */
  function VerdictOf(priorDone: bool, superseded: set<int>, ref: GithubTaskRef, status: string, verified: C.Decision): (d: C.Decision) {
    var kept := if status == "done" && verified.desired == Some(C.Review) && verified.reason == C.NoLinkedPr && priorDone
                then verified.(desired := Some(C.Done), reason := C.AuthoritativeDonePreserved) else verified;
    if kept.desired.Some? && superseded != {} then C.Evaluate(ref, kept.prs, kept.linked, None, superseded) else kept
  }

  function PassVerdict(log: seq<Event>, id: TaskId, ref: GithubTaskRef, status: string, verified: C.Decision): (d: C.Decision) {
    VerdictOf(HasPriorDone(log, id), SupersededPrs(log, id, ref), ref, status, verified)
  }

  // ------------------------------------------------------------- supersession

  function SupersedePayload(ref: GithubTaskRef, prNumber: int, head: string, signal: int, previous: string): (payload: map<string, Json>) {
    map["previous_status" := Str(previous), "new_status" := Str("ready"),
        "repository" := Str(ref.repository), "issue_number" := Int(ref.issueNumber),
        "pr_number" := Int(prNumber), "head_sha" := Str(head), "signal_comment_id" := Int(signal),
        "reason" := Str("explicit_pr_superseded"), "superseded" := Bool(true),
        "merge_authority" := Str("human"), "auto_merge" := Bool(false), "source" := Str("github")]
  }

  /** A supersede event adds its own request to the evidence of its own Issue. */
  lemma SupersedeEventCounts(log: seq<Event>, id: TaskId, ref: GithubTaskRef, asked: GithubTaskRef, prNumber: int, head: string,
                             signal: int, previous: string, now: int)
    ensures SupersededPrs(AppendEvent(log, id, "github_pr_superseded", SupersedePayload(ref, prNumber, head, signal, previous), now), id, asked)
            == SupersededPrs(log, id, asked)
               + if prNumber > 0 && signal > 0 && asked.repository == ref.repository && asked.issueNumber == ref.issueNumber
                 then {prNumber} else {}
  {
    var grown := AppendEvent(log, id, "github_pr_superseded", SupersedePayload(ref, prNumber, head, signal, previous), now);
    var e := grown[|log|];
    assert grown == log + [e];
    assert IsSupersedeEvidence(e, id, asked)
           <==> prNumber > 0 && signal > 0 && asked.repository == ref.repository && asked.issueNumber == ref.issueNumber;
    SupersededSnoc(log, id, asked, e);
  }

  /** The event tells of the abandoned request `n`, with all marks of the transition. */
  ghost predicate Abandons(e: Event, id: TaskId, ref: GithubTaskRef, n: int) {
    && e.taskId == id && (e.kind == "github_pr_superseded" || e.kind == "github_pr_supersede")
    && e.payload.Parsed? && e.payload.value.Object?
    && var f := e.payload.value.fields;
       && "pr_number" in f && f["pr_number"] == Int(n) && n > 0
       && "signal_comment_id" in f && f["signal_comment_id"].Int? && f["signal_comment_id"].i > 0
       && "repository" in f && f["repository"] == Str(ref.repository)
       && "issue_number" in f && PyEq(f["issue_number"], Int(ref.issueNumber))
       && "new_status" in f && f["new_status"] == Str("ready")
       && "reason" in f && f["reason"] == Str("explicit_pr_superseded")
       && "superseded" in f && f["superseded"] == Bool(true)
  }

  /** A request is superseded exactly when some event abandons it. */
  lemma SupersededWhen(log: seq<Event>, id: TaskId, ref: GithubTaskRef, n: int)
    ensures n in SupersededPrs(log, id, ref) <==> exists e :: e in log && Abandons(e, id, ref, n)
  {
    forall e ensures Abandons(e, id, ref, n) <==> IsSupersedeEvidence(e, id, ref) && Get(Fields(e.payload).value, "pr_number") == Int(n) {}
  }

  lemma SupersededSnoc(log: seq<Event>, id: TaskId, ref: GithubTaskRef, e: Event)
    ensures SupersededPrs(log + [e], id, ref)
            == SupersededPrs(log, id, ref)
               + if IsSupersedeEvidence(e, id, ref) then {Get(Fields(e.payload).value, "pr_number").i} else {}
  {
    assert forall x :: x in log + [e] <==> x in log || x == e;
    hide IsSupersedeEvidence;
  }

  /** `apply_supersede`: a parked card goes back to READY without an assignee, and
      the request is on record as abandoned.  `seen` is the status read before. */
  method ApplySupersede(board: Board, id: TaskId, ref: GithubTaskRef, prNumber: int, head: string, signal: int,
                        seen: Option<string>, now: int)
    returns (changed: bool)
    modifies board`tasks, board`events
    ensures changed <==> seen in {Some("review"), Some("blocked")} && id in old(board.tasks) && old(board.tasks)[id].row.status == seen.value
    ensures !changed ==> board.tasks == old(board.tasks) && board.events == old(board.events)
    ensures changed ==>
              && id in board.tasks && board.tasks == old(board.tasks)[id := board.tasks[id]] && board.tasks[id].body == old(board.tasks)[id].body
              && var row := board.tasks[id].row;
              && row.status == "ready" && row.completedAt.None? && row.assignee.None? && row.claimLock.None?
              && row.claimExpires.None? && row.workerPid.None? && row.blockKind.None? && row.blockRecurrences == 0
              && row.currentRunId == old(board.tasks)[id].row.currentRunId
    ensures changed ==> |board.events| == |old(board.events)| + 1 && old(board.events) <= board.events
    ensures changed && prNumber > 0 && signal > 0 ==>
              SupersededPrs(board.events, id, ref) == SupersededPrs(old(board.events), id, ref) + {prNumber}
    ensures forall asked: GithubTaskRef :: asked.repository != ref.repository || asked.issueNumber != ref.issueNumber ==>
              SupersededPrs(board.events, id, asked) == SupersededPrs(old(board.events), id, asked)
  {
    hide SupersededPrs, SupersedePayload, AppendEvent;
    changed := false;
    if seen != Some("review") && seen != Some("blocked") {
      return;
    }
    if id !in board.tasks || board.tasks[id].row.status != seen.value {
      return;
    }
    var task := board.tasks[id];
    board.tasks := board.tasks[id := task.(row := task.row.(status := "ready", completedAt := None, assignee := None, claimLock := None,
                                             claimExpires := None, workerPid := None, blockKind := None, blockRecurrences := 0))];
    ghost var log := board.events;
    board.events := AppendEvent(board.events, id, "github_pr_superseded", SupersedePayload(ref, prNumber, head, signal, seen.value), now);
    changed := true;
    forall asked ensures SupersededPrs(board.events, id, asked)
                         == SupersededPrs(log, id, asked)
                            + if prNumber > 0 && signal > 0 && asked.repository == ref.repository && asked.issueNumber == ref.issueNumber
                              then {prNumber} else {}
    {
      SupersedeEventCounts(log, id, ref, asked, prNumber, head, signal, seen.value, now);
    }
  }

  // --------------------------------------------------------- done preservation

  /** With nothing linked there is nothing to evaluate. */
  lemma NoLinkedPrHasNoPrs(ref: GithubTaskRef, prs: Option<seq<C.PullRequest>>, linked: set<int>, issue: Option<C.IssueState>)
    requires C.Verify(ref, prs, linked, issue).0.reason == C.NoLinkedPr
    ensures C.Verify(ref, prs, linked, issue).0.prs == []
    ensures C.Verify(ref, prs, linked, issue).0.desired == Some(C.Review)
  {
    hide C.SortByNumber, C.EffectivePrs, C.SupersededNumbers, C.UnresolvedNumbers, C.Lineage;
  }

  /** A done card with merge evidence in its log keeps its verdict through a pass
      that finds no linked PR, exactly when no supersede evidence is on record. */
  lemma DonePreservedIff(log: seq<Event>, id: TaskId, ref: GithubTaskRef, prs: Option<seq<C.PullRequest>>, linked: set<int>,
                         issue: Option<C.IssueState>)
    requires C.Verify(ref, prs, linked, issue).0.reason == C.NoLinkedPr && HasPriorDone(log, id)
    ensures PassVerdict(log, id, ref, "done", C.Verify(ref, prs, linked, issue).0).desired == Some(C.Done)
            <==> SupersededPrs(log, id, ref) == {}
  {
    hide C.Verify, HasPriorDone, SupersededPrs;
    NoLinkedPrHasNoPrs(ref, prs, linked, issue);
    var verified := C.Verify(ref, prs, linked, issue).0;
    assert C.SortByNumber([]) == [];
    assert C.Evaluate(ref, [], verified.linked, None, SupersededPrs(log, id, ref)).desired == Some(C.Review);
  }

  /** The payload that a transition writes is evidence for later passes exactly
      when it completes the card on merges, or on their preservation. */
  lemma DoneTransitionIsEvidence(log: seq<Event>, id: TaskId, d: C.Decision, previous: string, next: string, now: int)
    ensures HasPriorDone(AppendEvent(log, id, "github_pr_sync", Projection.Evidence(d, previous, next), now), id)
            <==> HasPriorDone(log, id)
                 || (d.desired == Some(C.Done) && d.reason in {C.AllLinkedPrsMerged, C.AuthoritativeDonePreserved})
  {
    var grown := AppendEvent(log, id, "github_pr_sync", Projection.Evidence(d, previous, next), now);
    var e := grown[|log|];
    Projection.EvidenceFields(d, previous, next);
    Projection.ReasonsAreTold(d.reason);
    hide Projection.Evidence, Projection.ReasonName;
    assert IsDoneEvidence(e, id)
           <==> d.desired == Some(C.Done) && d.reason in {C.AllLinkedPrsMerged, C.AuthoritativeDonePreserved};
    hide IsDoneEvidence, AppendEvent;
    assert forall x :: x in grown <==> x in log || x == e by { assert grown == log + [e]; }
  }

  lemma EvidenceStays(a: seq<Event>, b: seq<Event>, id: TaskId, ref: GithubTaskRef)
    requires a <= b
    ensures HasPriorDone(a, id) ==> HasPriorDone(b, id)
    ensures SupersededPrs(a, id, ref) <= SupersededPrs(b, id, ref)
  {
    assert forall e :: e in a ==> e in b;
  }

  // ------------------------------------------------------------- re-evaluation

  lemma {:induction false} WhereDistinct(prs: seq<C.PullRequest>, keep: C.PullRequest -> bool)
    requires C.DistinctNumbers(prs)
    ensures C.DistinctNumbers(C.Where(prs, keep))
  {
    if prs != [] {
      WhereDistinct(prs[1..], keep);
      assert forall pr :: pr in prs[1..] ==> pr.number != prs[0].number;
    }
  }

  lemma EffectiveDistinct(ref: GithubTaskRef, prs: seq<C.PullRequest>, superseded: set<int>)
    requires C.DistinctNumbers(prs)
    ensures C.DistinctNumbers(C.EffectivePrs(ref, prs, superseded))
  {
    forall keep: C.PullRequest -> bool ensures C.DistinctNumbers(C.Where(prs, keep)) {
      WhereDistinct(prs, keep);
    }
  }

  /** An authoritative decision carries exactly the effective requests. */
  lemma VerifiedCarriesEffective(ref: GithubTaskRef, prs: seq<C.PullRequest>, linked: set<int>, issue: Option<C.IssueState>)
    requires C.DistinctNumbers(prs) && C.Verify(ref, Some(prs), linked, issue).0.desired.Some?
    ensures var carried := C.Verify(ref, Some(prs), linked, issue).0.prs;
            && C.DistinctNumbers(carried)
            && forall pr :: pr in carried <==> pr in prs && C.Effective(ref, pr)
  {
    hide C.Judge, C.UnresolvedNumbers, C.SupersededNumbers;
    C.DistinctSurvivesReorder(prs, C.SortByNumber(prs));
    EffectiveDistinct(ref, C.SortByNumber(prs), {});
    hide C.EffectivePrs, C.SortByNumber;
  }

  /** Some effective request is not superseded, and all such requests merged. */
  ghost predicate RestMerged(ref: GithubTaskRef, prs: seq<C.PullRequest>, superseded: set<int>) {
    && (exists pr :: C.Counts(ref, prs, superseded, pr))
    && (forall pr :: C.Counts(ref, prs, superseded, pr) ==> C.Landed(ref, pr))
  }

  /** Supersede evidence re-evaluates without reading the Issue: the verdict is then
      done exactly when what it leaves is there and merged.  So a completion that
      rested on the closed Issue is lost as soon as any evidence exists that does
      not cover every unmerged request. */
  lemma ReevaluationForgetsTheIssue(priorDone: bool, superseded: set<int>, ref: GithubTaskRef, status: string,
                                    prs: seq<C.PullRequest>, linked: set<int>, issue: Option<C.IssueState>)
    requires C.DistinctNumbers(prs) && superseded != {}
    requires C.Verify(ref, Some(prs), linked, issue).0.desired.Some?
    ensures VerdictOf(priorDone, superseded, ref, status, C.Verify(ref, Some(prs), linked, issue).0).desired == Some(C.Done)
            <==> RestMerged(ref, prs, superseded)
  {
    hide C.Verify, C.Evaluate;
    VerifiedCarriesEffective(ref, prs, linked, issue);
    var verified := C.Verify(ref, Some(prs), linked, issue).0;
    C.DoneIffComplete(ref, verified.prs, verified.linked, None, superseded);
    forall pr ensures C.Counts(ref, verified.prs, superseded, pr) <==> C.Counts(ref, prs, superseded, pr) {}
  }

  // --------------------------------------------------------------- the verdict

  /** A lookup that the verdict depends on failed: the requests, or an Issue whose
      state would decide. */
  ghost predicate Unverified(ref: GithubTaskRef, prs: Option<seq<C.PullRequest>>, issue: Option<C.IssueState>) {
    prs.None? || (issue.None? && C.IssueDecides(ref, prs.value))
  }

  /** The card is to be done.  Without supersede evidence: it is complete, or it
      was done on record and nothing linked counts any more.  With it: what it
      leaves is there and landed, whatever the Issue says. */
  ghost predicate EndsDone(ref: GithubTaskRef, prs: seq<C.PullRequest>, issue: Option<C.IssueState>, superseded: set<int>,
                           status: string, priorDone: bool)
  {
    if superseded == {}
    then C.Complete(ref, prs, issue, {}) || (status == "done" && priorDone && C.NoneCount(ref, prs))
    else RestMerged(ref, prs, superseded)
  }

  /** The verdict of a pass, in terms of what GitHub and the log show. */
  lemma VerdictWhen(priorDone: bool, superseded: set<int>, ref: GithubTaskRef, status: string, prs: Option<seq<C.PullRequest>>,
                    linked: set<int>, issue: Option<C.IssueState>)
    requires prs.Some? ==> C.DistinctNumbers(prs.value)
    ensures var d := VerdictOf(priorDone, superseded, ref, status, C.Verify(ref, prs, linked, issue).0);
            && (d.desired.None? <==> Unverified(ref, prs, issue))
            && (d.desired == Some(C.Done) <==>
                  !Unverified(ref, prs, issue) && EndsDone(ref, prs.value, issue, superseded, status, priorDone))
            && (!Unverified(ref, prs, issue) && status == "done" && priorDone && superseded == {} && C.NoneCount(ref, prs.value) ==>
                  d.reason == C.AuthoritativeDonePreserved)
  {
    hide C.Verify, C.Evaluate, VerdictOf, RestMerged, C.IssueDecides, C.NoneCount, C.Complete;
    C.VerifyWhen(ref, prs, linked, issue);
    if prs.None? || C.Verify(ref, prs, linked, issue).0.desired.None? {
      FailedVerdict(priorDone, superseded, ref, status, C.Verify(ref, prs, linked, issue).0);
    } else if superseded == {} {
      PlainVerdict(priorDone, ref, status, C.Verify(ref, prs, linked, issue).0);
      if C.Complete(ref, prs.value, issue, {}) { CompleteCounts(ref, prs.value, issue); }
      if C.NoneCount(ref, prs.value) { NoLinkedPrHasNoPrs(ref, prs, linked, issue); }
    } else {
      ReevaluationForgetsTheIssue(priorDone, superseded, ref, status, prs.value, linked, issue);
      ReevaluationIsAuthoritative(priorDone, superseded, ref, status, C.Verify(ref, prs, linked, issue).0);
    }
  }

  lemma FailedVerdict(priorDone: bool, superseded: set<int>, ref: GithubTaskRef, status: string, verified: C.Decision)
    requires verified.desired.None?
    ensures VerdictOf(priorDone, superseded, ref, status, verified).desired.None?
  {
    hide C.Evaluate;
  }

  /** Without supersede evidence only the preservation of an earlier done intervenes. */
  lemma PlainVerdict(priorDone: bool, ref: GithubTaskRef, status: string, verified: C.Decision)
    requires verified.desired.Some?
    ensures VerdictOf(priorDone, {}, ref, status, verified).desired
            == if status == "done" && priorDone && verified.desired == Some(C.Review) && verified.reason == C.NoLinkedPr
               then Some(C.Done) else verified.desired
    ensures status == "done" && priorDone && verified.desired == Some(C.Review) && verified.reason == C.NoLinkedPr ==>
              VerdictOf(priorDone, {}, ref, status, verified).reason == C.AuthoritativeDonePreserved
  {
    hide C.Evaluate;
  }

  lemma ReevaluationIsAuthoritative(priorDone: bool, superseded: set<int>, ref: GithubTaskRef, status: string, verified: C.Decision)
    requires verified.desired.Some? && superseded != {}
    ensures VerdictOf(priorDone, superseded, ref, status, verified).desired.Some?
  {
    hide C.Evaluate;
    C.EvaluateIsAuthoritative(ref, verified.prs, verified.linked, None, superseded);
  }

  lemma CompleteCounts(ref: GithubTaskRef, prs: seq<C.PullRequest>, issue: Option<C.IssueState>)
    requires C.Complete(ref, prs, issue, {})
    ensures !C.NoneCount(ref, prs)
  {}

  // ------------------------------------------------------------------ the pass

  /** The row of an intake root that has to wait for its parents again. */
  function Waiting(row: Row): (r: Row) {
    row.(status := "todo", completedAt := None, assignee := None, claimLock := None, claimExpires := None,
         workerPid := None, blockKind := None, blockRecurrences := 0)
  }

  function ParentJson(p: DependencyGate.ParentStatus): (j: Json) {
    Object(map["id" := Str(p.id), "status" := Str(p.status)])
  }

  function GatePayload(previous: string, pending: seq<DependencyGate.ParentStatus>): (payload: map<string, Json>) {
    map["parents" := Array(seq(|pending|, i requires 0 <= i < |pending| => ParentJson(pending[i]))),
        "dependency_gate" := Str("pending"), "source" := Str("github"), "previous_status" := Str(previous), "new_status" := Str("todo"),
        "reason" := Str("internal_dependency_pending"), "merge_authority" := Str("human"), "auto_merge" := Bool(false)]
  }

  ghost predicate Dangling(tasks: map<TaskId, Task>, links: seq<Link>, id: TaskId) {
    exists p :: Link(p, id) in links && p !in tasks
  }

  /** Nothing is left for a pass to do on this card. */
  ghost predicate Settled(tasks: map<TaskId, Task>, links: seq<Link>, log: seq<Event>, id: TaskId, ref: GithubTaskRef,
                          verified: C.Decision, backed: string -> bool, context: Option<string>) {
    || id !in tasks || !backed(tasks[id].body) || Dangling(tasks, links, id)
    || (!ParentsTerminal(tasks, links, id) && tasks[id].row.status !in {"review", "done"})
    || (ParentsTerminal(tasks, links, id) && VerdictSettled(tasks[id], log, id, ref, verified, context))
  }

  predicate VerdictSettled(task: Task, log: seq<Event>, id: TaskId, ref: GithubTaskRef, verified: C.Decision, context: Option<string>) {
    var d := PassVerdict(log, id, ref, task.row.status, verified);
    || d.desired.None?
    || Projection.StatusName(d.desired.value) == task.row.status
    || task.row.status in Projection.PRESERVED
    || (d.desired == Some(C.Review) && context.Some? && SyncContext.Replace(SyncContext.SYNC, task.body, context.value).None?)
  }

  /** Where a pass that changes the card takes it. */
  ghost function NextStatus(tasks: map<TaskId, Task>, links: seq<Link>, log: seq<Event>, id: TaskId, ref: GithubTaskRef,
                            verified: C.Decision): (status: string)
  {
    if !ParentsTerminal(tasks, links, id) || id !in tasks then "todo"
    else
      var d := PassVerdict(log, id, ref, tasks[id].row.status, verified);
      if d.desired.Some? then Projection.StatusName(d.desired.value) else ""
  }

  /** `_restore_pending_dependency`, then the verdict and its projection, with no
      other writer in between and no supersede, rework or blocked lane applying. */
  method ClassicPass(board: Board, id: TaskId, ref: GithubTaskRef, verified: C.Decision, backed: string -> bool,
                     context: Option<string>, parking: Option<string>, now: int)
    returns (changed: bool)
    modifies board
    ensures board.links == old(board.links) && old(board.events) <= board.events
    ensures board.tasks.Keys == old(board.tasks).Keys
    ensures forall t :: t in old(board.tasks) && t != id ==> board.tasks[t] == old(board.tasks)[t]
    ensures !changed ==> board.tasks == old(board.tasks) && board.events == old(board.events) && board.comments == old(board.comments)
    ensures changed <==> !old(Settled(board.tasks, board.links, board.events, id, ref, verified, backed, context))
    ensures changed ==> board.tasks[id].row.status != old(board.tasks)[id].row.status
    ensures changed ==> board.tasks[id].row.status == old(NextStatus(board.tasks, board.links, board.events, id, ref, verified))
    ensures changed && context.None? ==> board.tasks[id].body == old(board.tasks)[id].body
    ensures SupersededPrs(board.events, id, ref) == SupersededPrs(old(board.events), id, ref)
    ensures Link(id, id) !in board.links ==> Settled(board.tasks, board.links, board.events, id, ref, verified, backed, context)
  {
    changed := false;
    if id !in board.tasks || !backed(board.tasks[id].body) {
      return;
    }
    var gate := DependencyGate.InternalDependencyGate(board.tasks, board.links, id);
    if gate.Err? {
      assert Dangling(board.tasks, board.links, id);
      return;
    }
    assert !Dangling(board.tasks, board.links, id);
    if gate.value.pending != [] {
      changed := RestorePending(board, id, gate.value.pending, now);
    } else {
      changed := ProjectVerdict(board, id, ref, verified, backed, context, parking, now);
    }
  }

  /** A classic pass on a parked or completed card whose parents are terminal: the
      card ends done exactly when it should, and in review when it should not,
      unless the review context cannot be put into its body; and a failed lookup
      leaves the board as it was. */
  method VerifiedPass(board: Board, id: TaskId, ref: GithubTaskRef, prs: Option<seq<C.PullRequest>>, linked: set<int>,
                      issue: Option<C.IssueState>, backed: string -> bool, context: Option<string>, parking: Option<string>, now: int)
    returns (changed: bool)
    requires id in board.tasks && backed(board.tasks[id].body) && board.tasks[id].row.status in {"review", "done"}
    requires ParentsTerminal(board.tasks, board.links, id) && (prs.Some? ==> C.DistinctNumbers(prs.value))
    modifies board
    ensures id in board.tasks
    ensures forall t :: t in old(board.tasks) && t != id ==> t in board.tasks && board.tasks[t] == old(board.tasks)[t]
    ensures Unverified(ref, prs, issue) ==>
              board.tasks == old(board.tasks) && board.events == old(board.events) && board.comments == old(board.comments)
    ensures !Unverified(ref, prs, issue) ==>
              var task := old(board.tasks)[id];
              board.tasks[id].row.status ==
                if EndsDone(ref, prs.value, issue, SupersededPrs(old(board.events), id, ref), task.row.status, HasPriorDone(old(board.events), id))
                then "done"
                else if context.Some? && SyncContext.Replace(SyncContext.SYNC, task.body, context.value).None? then task.row.status
                else "review"
    ensures changed <==> board.tasks[id].row.status != old(board.tasks)[id].row.status
  {
    hide C.Verify, VerdictOf, EndsDone, Unverified, HasPriorDone, SupersededPrs, SyncContext.Replace;
    VerdictWhen(HasPriorDone(board.events, id), SupersededPrs(board.events, id, ref), ref, board.tasks[id].row.status, prs, linked, issue);
    assert !Dangling(board.tasks, board.links, id) by {
      forall p | Link(p, id) in board.links ensures p in board.tasks { assert TerminalTask(board.tasks, p); }
    }
    changed := ClassicPass(board, id, ref, C.Verify(ref, prs, linked, issue).0, backed, context, parking, now);
  }

  /** `_restore_pending_dependency`: an intake root waits for its parents again. */
  method RestorePending(board: Board, id: TaskId, pending: seq<DependencyGate.ParentStatus>, now: int) returns (changed: bool)
    requires id in board.tasks
    modifies board`tasks, board`events
    ensures changed <==> old(board.tasks)[id].row.status in {"review", "done"}
    ensures board.tasks == if changed then old(board.tasks)[id := old(board.tasks)[id].(row := Waiting(old(board.tasks)[id].row))]
                           else old(board.tasks)
    ensures board.events == if changed then AppendEvent(old(board.events), id, "github_dependency_gate",
                                                        GatePayload(old(board.tasks)[id].row.status, pending), now)
                            else old(board.events)
    ensures old(board.events) <= board.events
    ensures changed ==> board.tasks[id].row.status == "todo" && board.tasks[id].body == old(board.tasks)[id].body
    ensures changed ==>
              var row := board.tasks[id].row;
              && row.completedAt.None? && row.assignee.None? && row.claimLock.None? && row.claimExpires.None? && row.workerPid.None?
              && row.blockKind.None? && row.blockRecurrences == 0 && row.currentRunId == old(board.tasks)[id].row.currentRunId
    ensures forall ref :: SupersededPrs(board.events, id, ref) == SupersededPrs(old(board.events), id, ref)
    ensures Link(id, id) !in board.links && !Dangling(old(board.tasks), board.links, id) && !ParentsTerminal(old(board.tasks), board.links, id) ==>
              !ParentsTerminal(board.tasks, board.links, id) && board.tasks[id].row.status !in {"review", "done"}
  {
    ghost var tasks, log := board.tasks, board.events;
    var task := board.tasks[id];
    changed := task.row.status == "review" || task.row.status == "done";
    if changed {
      board.tasks := board.tasks[id := task.(row := Waiting(task.row))];
      board.events := AppendEvent(board.events, id, "github_dependency_gate", GatePayload(task.row.status, pending), now);
      forall ref ensures SupersededPrs(board.events, id, ref) == SupersededPrs(log, id, ref) {
        SyncEventsDoNotSupersede(log, id, ref, "github_dependency_gate", GatePayload(task.row.status, pending), now);
      }
      if Link(id, id) !in board.links {
        ParentsElsewhere(tasks, board.tasks, board.links, id);
      }
    }
  }

  /** The verdict of this pass, projected on a card whose parents are terminal. */
  method ProjectVerdict(board: Board, id: TaskId, ref: GithubTaskRef, verified: C.Decision, backed: string -> bool,
                        context: Option<string>, parking: Option<string>, now: int)
    returns (changed: bool)
    requires id in board.tasks && backed(board.tasks[id].body) && ParentsTerminal(board.tasks, board.links, id)
    modifies board
    ensures board.links == old(board.links) && old(board.events) <= board.events
    ensures board.tasks.Keys == old(board.tasks).Keys
    ensures forall t :: t in old(board.tasks) && t != id ==> board.tasks[t] == old(board.tasks)[t]
    ensures !changed ==> board.tasks == old(board.tasks) && board.events == old(board.events) && board.comments == old(board.comments)
    ensures changed <==> !VerdictSettled(old(board.tasks)[id], old(board.events), id, ref, verified, context)
    ensures changed ==> board.tasks[id].row.status != old(board.tasks)[id].row.status
    ensures changed ==> board.tasks[id].row.status == old(NextStatus(board.tasks, board.links, board.events, id, ref, verified))
    ensures changed && context.None? ==> board.tasks[id].body == old(board.tasks)[id].body
    ensures SupersededPrs(board.events, id, ref) == SupersededPrs(old(board.events), id, ref)
    ensures Link(id, id) !in board.links ==>
              ParentsTerminal(board.tasks, board.links, id) && VerdictSettled(board.tasks[id], board.events, id, ref, verified, context)
  {
    hide PassVerdict, SyncContext.Replace, Projection.Evidence, Projection.Mark;
    ghost var tasks, log := board.tasks, board.events;
    var task := board.tasks[id];
    var d := PassVerdict(board.events, id, ref, task.row.status, verified);
    var outcome := Projection.ApplyDecision(board, id, d, backed, context, parking, false,
                                            Projection.Seen(Some(task), Snapshot(board.tasks, board.links, board.events)), now);
    changed := outcome.Applied?;
    if changed {
      SyncEventsDoNotSupersede(log, id, ref, "github_pr_sync", Projection.Evidence(d, task.row.status, outcome.status), now);
    }
    if changed && Link(id, id) !in board.links {
      ParentsElsewhere(tasks, board.tasks, board.links, id);
      ProjectedIsSettled(log, id, ref, task.row.status, verified, d, board.tasks[id], context, now);
    }
  }

  /** A card's own status does not bear on its parents. */
  lemma ParentsElsewhere(before: map<TaskId, Task>, after: map<TaskId, Task>, links: seq<Link>, id: TaskId)
    requires Link(id, id) !in links && before.Keys == after.Keys && forall t :: t in before && t != id ==> after[t] == before[t]
    ensures ParentsTerminal(after, links, id) <==> ParentsTerminal(before, links, id)
    ensures Dangling(after, links, id) <==> Dangling(before, links, id)
  {
    if ParentsTerminal(before, links, id) {
      forall p | Link(p, id) in links ensures TerminalTask(after, p) { assert TerminalTask(before, p); }
    }
    if ParentsTerminal(after, links, id) {
      forall p | Link(p, id) in links ensures TerminalTask(before, p) { assert TerminalTask(after, p); }
    }
  }

  /** The verdict on the projected card is the status it was given. */
  lemma ProjectedIsSettled(log: seq<Event>, id: TaskId, ref: GithubTaskRef, status: string, verified: C.Decision, d: C.Decision,
                           after: Task, context: Option<string>, now: int)
    requires d == PassVerdict(log, id, ref, status, verified) && d.desired.Some?
    requires status !in Projection.PRESERVED && Projection.StatusName(d.desired.value) != status
    requires after.row.status == Projection.StatusName(d.desired.value)
    ensures VerdictSettled(after, AppendEvent(log, id, "github_pr_sync", Projection.Evidence(d, status, after.row.status), now),
                           id, ref, verified, context)
  {
    hide C.Evaluate, HasPriorDone, Projection.Evidence;
    var grown := AppendEvent(log, id, "github_pr_sync", Projection.Evidence(d, status, after.row.status), now);
    SyncEventsDoNotSupersede(log, id, ref, "github_pr_sync", Projection.Evidence(d, status, after.row.status), now);
    hide SupersededPrs, AppendEvent;
    assert PassVerdict(grown, id, ref, after.row.status, verified).desired == d.desired || after.row.status == status;
  }

  lemma SyncEventsDoNotSupersede(log: seq<Event>, id: TaskId, ref: GithubTaskRef, kind: string, payload: map<string, Json>, now: int)
    requires kind !in SUPERSEDE_KINDS
    ensures SupersededPrs(AppendEvent(log, id, kind, payload, now), id, ref) == SupersededPrs(log, id, ref)
  {
    var grown := AppendEvent(log, id, kind, payload, now);
    assert forall e :: e in grown && e.kind in SUPERSEDE_KINDS ==> e in log;
    assert forall e :: e in log ==> e in grown;
  }

  /** One pass over the card, and what other writers logged before it. */
  datatype Visit = Visit(others: seq<Event>, prs: Option<seq<C.PullRequest>>, linked: set<int>, issue: Option<C.IssueState>, now: int)

  function Found(ref: GithubTaskRef, v: Visit): (d: C.Decision) {
    C.Verify(ref, v.prs, v.linked, v.issue).0
  }

  /** Over any run of passes that find no linked PR, with arbitrary appends to the
      log in between, a done card with merge evidence keeps its row untouched,
      exactly as long as no supersede evidence is logged. */
  method DoneSurvivesRuns(board: Board, id: TaskId, ref: GithubTaskRef, backed: string -> bool, visits: seq<Visit>)
    requires id in board.tasks && board.tasks[id].row.status == "done" && backed(board.tasks[id].body)
    requires HasPriorDone(board.events, id) && ParentsTerminal(board.tasks, board.links, id) && Link(id, id) !in board.links
    requires forall v :: v in visits ==> Found(ref, v).reason == C.NoLinkedPr
    modifies board
    ensures old(board.events) <= board.events && id in board.tasks
    ensures visits != [] ==> (board.tasks[id].row.status == "done" <==> SupersededPrs(board.events, id, ref) == {})
    ensures board.tasks[id].row.status == "done" ==> board.tasks == old(board.tasks)
    ensures board.tasks[id].row.status in {"done", "review"}
  {
    for k := 0 to |visits|
      invariant board.links == old(board.links) && old(board.events) <= board.events
      invariant WasComplete(board, id, ref, backed)
      invariant board.tasks[id].row.status == "done" ==> board.tasks == old(board.tasks)
      invariant k > 0 && board.tasks[id].row.status == "done" ==> SupersededPrs(board.events, id, ref) == {}
    {
      hide WasComplete, SupersededPrs, Found;
      assert visits[k] in visits;
      OneVisit(board, id, ref, backed, visits[k]);
    }
  }

  /** Done, or moved to review by supersede evidence, under terminal parents. */
  ghost predicate WasComplete(board: Board, id: TaskId, ref: GithubTaskRef, backed: string -> bool)
    reads board
  {
    && id in board.tasks && backed(board.tasks[id].body) && ParentsTerminal(board.tasks, board.links, id) && Link(id, id) !in board.links
    && HasPriorDone(board.events, id) && board.tasks[id].row.status in {"done", "review"}
    && (board.tasks[id].row.status == "review" ==> SupersededPrs(board.events, id, ref) != {})
  }

  method OneVisit(board: Board, id: TaskId, ref: GithubTaskRef, backed: string -> bool, v: Visit)
    requires WasComplete(board, id, ref, backed) && Found(ref, v).reason == C.NoLinkedPr
    modifies board
    ensures board.links == old(board.links) && old(board.events) <= board.events
    ensures WasComplete(board, id, ref, backed)
    ensures board.tasks[id].row.status == "done" ==>
              old(board.tasks)[id].row.status == "done" && board.tasks == old(board.tasks) && SupersededPrs(board.events, id, ref) == {}
  {
    hide HasPriorDone, SupersededPrs, PassVerdict, C.Verify, Found;
    ghost var log, tasks := board.events, board.tasks;
    board.events := board.events + v.others;
    ghost var before := board.events;
    EvidenceStays(log, before, id, ref);
    NoLinkedVerdict(before, id, ref, board.tasks[id].row.status, v);
    assert !Dangling(board.tasks, board.links, id) by {
      forall p | Link(p, id) in board.links ensures p in board.tasks { assert TerminalTask(board.tasks, p); }
    }
    var changed := ClassicPass(board, id, ref, Found(ref, v), backed, None, None, v.now);
    EvidenceStays(before, board.events, id, ref);
    ParentsElsewhere(tasks, board.tasks, board.links, id);
  }

  /** What a pass without linked PRs makes of a card that was once complete. */
  lemma NoLinkedVerdict(log: seq<Event>, id: TaskId, ref: GithubTaskRef, status: string, v: Visit)
    requires Found(ref, v).reason == C.NoLinkedPr && HasPriorDone(log, id) && status in {"done", "review"}
    ensures PassVerdict(log, id, ref, status, Found(ref, v)).desired
            == Some(if status == "done" && SupersededPrs(log, id, ref) == {} then C.Done else C.Review)
  {
    hide C.Verify, HasPriorDone, SupersededPrs;
    NoLinkedPrHasNoPrs(ref, v.prs, v.linked, v.issue);
    assert C.SortByNumber([]) == [];
    assert C.Evaluate(ref, [], Found(ref, v).linked, None, SupersededPrs(log, id, ref)).desired == Some(C.Review);
  }

  /** With GitHub frozen, any number of classic passes changes the card at most once. */
  method RepeatedPasses(board: Board, id: TaskId, ref: GithubTaskRef, verified: C.Decision, backed: string -> bool,
                        context: Option<string>, parking: Option<string>, times: seq<int>)
    returns (changes: nat)
    requires Link(id, id) !in board.links
    modifies board
    ensures changes <= 1
    ensures changes == 0 ==> board.tasks == old(board.tasks) && board.events == old(board.events) && board.comments == old(board.comments)
    ensures times != [] ==> Settled(board.tasks, board.links, board.events, id, ref, verified, backed, context)
    ensures times != [] ==>
      (changes == 1 <==> !old(Settled(board.tasks, board.links, board.events, id, ref, verified, backed, context)))
  {
    changes := 0;
    for k := 0 to |times|
      invariant board.links == old(board.links)
      invariant changes <= 1
      invariant changes == 0 ==> board.tasks == old(board.tasks) && board.events == old(board.events) && board.comments == old(board.comments)
      invariant k > 0 ==> Settled(board.tasks, board.links, board.events, id, ref, verified, backed, context)
      invariant k == 0 ==> changes == 0
      invariant k > 0 ==> (changes == 1 <==> !old(Settled(board.tasks, board.links, board.events, id, ref, verified, backed, context)))
    {
      hide Settled;
      var changed := ClassicPass(board, id, ref, verified, backed, context, parking, times[k]);
      if changed {
        changes := changes + 1;
      }
    }
  }
}
