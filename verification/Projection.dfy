/** The one transition that projects a GitHub verdict onto a card. */
module Projection {
  import opened Prelude
  import opened EventLog
  import opened KanbanBoard
  import DependencyGate
  import Completion
  import SyncContext

  const PRESERVED: set<string> := {"triage", "todo", "scheduled", "ready", "running", "blocked", "archived"}

  datatype Outcome =
    | TaskMissing
    | NotGithubBacked
    | NotAuthoritative
    | Idempotent
    | StatePreserved
    | RecheckFailed(parent: TaskId)
    | ContextUnpackable
    | RecheckPending
    | StateChanged
    | Applied(status: string)

  function StatusName(d: Completion.Desired): (s: string) {
    match d case Review => "review" case Done => "done"
  }

  function ReasonName(r: Completion.Reason): (s: string) {
    match r
    case NoLinkedPr => "no_linked_pr"
    case AllLinkedPrsMerged => "all_linked_prs_merged"
    case AuthoritativeDonePreserved => "authoritative_done_preserved"
    case SupersededPrMerged => "superseded_pr_merged"
    case LinkedPrOpen => "linked_pr_open"
    case LinkedPrClosedNotMerged => "linked_pr_closed_not_merged"
    case LinkedPrNotMerged => "linked_pr_not_merged"
    case GithubQueryFailed => "github_query_failed"
  }

  function Evidence(d: Completion.Decision, previous: string, next: string): (payload: map<string, Json>) {
    map["desired_status" := if d.desired.None? then Null else Str(StatusName(d.desired.value)),
        "reason" := Str(ReasonName(d.reason)),
        "authoritative" := Bool(d.desired.Some?),
        "source" := Str("github"),
        "previous_status" := Str(previous),
        "new_status" := Str(next),
        "merge_authority" := Str("human"),
        "auto_merge" := Bool(false)]
  }

  /** What later readers find in the payload: the transition, its reason, and that
      it was decided by GitHub and merged by nobody but a human. */
  lemma EvidenceFields(d: Completion.Decision, previous: string, next: string)
    ensures var f := Evidence(d, previous, next);
            && Get(f, "previous_status") == Str(previous) && Get(f, "new_status") == Str(next)
            && Get(f, "desired_status") == (if d.desired.None? then Null else Str(StatusName(d.desired.value)))
            && Get(f, "reason") == Str(ReasonName(d.reason)) && Get(f, "authoritative") == Bool(d.desired.Some?)
            && Get(f, "source") == Str("github") && Get(f, "merge_authority") == Str("human") && Get(f, "auto_merge") == Bool(false)
  {}

  lemma ReasonsAreTold(r: Completion.Reason)
    ensures ReasonName(r) == "all_linked_prs_merged" <==> r == Completion.AllLinkedPrsMerged
    ensures ReasonName(r) == "authoritative_done_preserved" <==> r == Completion.AuthoritativeDonePreserved
  {}

  /** The row of a card parked for review. */
  function Parked(row: Row): (r: Row) {
    row.(status := "review", completedAt := None, assignee := None, claimLock := None,
         claimExpires := None, workerPid := None, blockKind := None, blockRecurrences := 0)
  }

  /** The row of a completed card. */
  function Finished(row: Row, now: int): (r: Row) {
    row.(status := "done", completedAt := Some(now), claimLock := None,
         claimExpires := None, workerPid := None, blockKind := None, blockRecurrences := 0)
  }

  /** Both transitions free the card of claim, worker and block.  A completed card
      keeps its assignee and gets its completion time; a parked one has neither. */
  lemma ProjectedColumns(was: Row, now: int)
    ensures var done := Finished(was, now);
            && done.status == "done" && done.completedAt == Some(now) && done.assignee == was.assignee
            && done.claimLock.None? && done.claimExpires.None? && done.workerPid.None? && done.currentRunId == was.currentRunId
            && done.blockKind.None? && done.blockRecurrences == 0
    ensures var parked := Parked(was);
            && parked.status == "review" && parked.completedAt.None? && parked.assignee.None?
            && parked.claimLock.None? && parked.claimExpires.None? && parked.workerPid.None? && parked.currentRunId == was.currentRunId
            && parked.blockKind.None? && parked.blockRecurrences == 0
  {}

  predicate IsSpace(c: char) { c == ' ' || c == '\n' || c == '\t' || c == '\r' }

  function Stripped(s: string): (r: string)
    decreases |s|
  {
    if s != "" && IsSpace(s[0]) then Stripped(s[1..])
    else if s != "" && IsSpace(s[|s| - 1]) then Stripped(s[..|s| - 1])
    else s
  }

  /** Stripping takes white space from both ends, all of it and nothing else. */
  lemma {:induction false} StrippedWhen(s: string)
    ensures exists lo, hi :: IsStripping(s, lo, hi) && Stripped(s) == s[lo..hi]
    decreases |s|
  {
    if s != "" && IsSpace(s[0]) {
      StrippedWhen(s[1..]);
      var lo, hi :| IsStripping(s[1..], lo, hi) && Stripped(s[1..]) == s[1..][lo..hi];
      StrippingFront(s, lo, hi);
    } else if s != "" && IsSpace(s[|s| - 1]) {
      StrippedWhen(s[..|s| - 1]);
      var lo, hi :| IsStripping(s[..|s| - 1], lo, hi) && Stripped(s[..|s| - 1]) == s[..|s| - 1][lo..hi];
      StrippingBack(s, lo, hi);
    } else {
      assert s[0..|s|] == s;
      assert IsStripping(s, 0, |s|);
    }
  }

  lemma StrippingFront(s: string, lo: int, hi: int)
    requires s != "" && IsSpace(s[0]) && IsStripping(s[1..], lo, hi)
    ensures IsStripping(s, lo + 1, hi + 1) && s[1..][lo..hi] == s[lo + 1..hi + 1]
  {
    forall i | 0 <= i < lo + 1 ensures s[i] in " \n\t\r" {
      if i > 0 { assert s[1..][i - 1] in " \n\t\r"; }
    }
    forall i | hi + 1 <= i < |s| ensures s[i] in " \n\t\r" {
      assert s[1..][i - 1] in " \n\t\r";
    }
  }

  lemma StrippingBack(s: string, lo: int, hi: int)
    requires s != "" && IsSpace(s[|s| - 1]) && IsStripping(s[..|s| - 1], lo, hi)
    ensures IsStripping(s, lo, hi) && s[..|s| - 1][lo..hi] == s[lo..hi]
  {
    forall i | hi <= i < |s| ensures s[i] in " \n\t\r" {
      if i < |s| - 1 { assert s[..|s| - 1][i] in " \n\t\r"; }
    }
  }

  ghost predicate IsStripping(s: string, lo: int, hi: int) {
    && 0 <= lo <= hi <= |s|
    && (forall i :: 0 <= i < lo ==> s[i] in " \n\t\r") && (forall i :: hi <= i < |s| ==> s[i] in " \n\t\r")
    && (lo < hi ==> s[lo] !in " \n\t\r" && s[hi - 1] !in " \n\t\r")
  }

  predicate AlreadyMarked(comments: seq<Comment>, id: TaskId, body: string) {
    exists c :: c in comments && c.taskId == id && Stripped(c.body) == body
  }

  /** `_append_parking_comment_if_absent`. */
  function Mark(comments: seq<Comment>, id: TaskId, body: string, now: int): (marked: seq<Comment>) {
    if AlreadyMarked(comments, id, body) then comments
    else comments + [Comment(id, "github-edge", body, now)]
  }

  /** A comment is added exactly when no comment of the card says the same but for
      white space around it; and it is the only one added. */
  lemma MarkWhen(comments: seq<Comment>, id: TaskId, body: string, now: int)
    ensures (exists c :: c in comments && c.taskId == id && Stripped(c.body) == body) ==> Mark(comments, id, body, now) == comments
    ensures (forall c :: c in comments && c.taskId == id ==> Stripped(c.body) != body) ==>
              Mark(comments, id, body, now) == comments + [Comment(id, "github-edge", body, now)]
  {}

  /** Marking twice is marking once, for a marker line that needs no stripping. */
  lemma MarkOnce(comments: seq<Comment>, id: TaskId, body: string, now: int, later: int)
    requires Stripped(body) == body
    ensures Mark(Mark(comments, id, body, now), id, body, later) == Mark(comments, id, body, now)
  {
    var c := Comment(id, "github-edge", body, now);
    assert c in comments + [c];
  }

  /** What the reads before the write saw: the row, and the dependency gate. */
  datatype Seen = Seen(row: Option<Task>, gate: Snapshot)

  /** The checks that precede the write let it be tried. */
  ghost predicate Admitted(id: TaskId, seen: Seen, d: Completion.Decision, backed: string -> bool, allowBlocked: bool) {
    && seen.row.Some? && backed(seen.row.value.body)
    && d.desired.Some?
    && StatusName(d.desired.value) != seen.row.value.row.status
    && (seen.row.value.row.status !in PRESERVED || (allowBlocked && seen.row.value.row.status == "blocked"))
    && (forall p :: Link(p, id) in seen.gate.links ==> p in seen.gate.tasks)
  }

  /** Only a card in review or done is moved, and a blocked one when that is asked
      for; never to the status it has, and never beside a dangling parent. */
  lemma AdmittedWhen(id: TaskId, seen: Seen, d: Completion.Decision, backed: string -> bool, allowBlocked: bool)
    requires seen.row.Some?
    ensures var status := seen.row.value.row.status;
            Admitted(id, seen, d, backed, allowBlocked) <==>
              && backed(seen.row.value.body) && d.desired.Some?
              && status != (if d.desired == Some(Completion.Done) then "done" else "review")
              && status !in {"triage", "todo", "scheduled", "ready", "running", "archived"}
              && (status == "blocked" ==> allowBlocked)
              && forall p :: Link(p, id) in seen.gate.links ==> p in seen.gate.tasks
  {}

  ghost predicate ContextFits(seen: Seen, d: Completion.Decision, context: Option<string>)
    requires seen.row.Some?
  {
    d.desired == Some(Completion.Review) && context.Some? ==>
      SyncContext.Replace(SyncContext.SYNC, seen.row.value.body, context.value).Some?
  }

  /** What the guarded statement itself requires of the board it writes to. */
  ghost predicate WriteFires(tasks: map<TaskId, Task>, links: seq<Link>, id: TaskId, status: string) {
    && id in tasks && tasks[id].row.status == status
    && ParentsTerminal(tasks, links, id)
  }

  /** `apply_decision`.  `seen` is what its reads returned; the board is the one
      the guarded `UPDATE` meets, after whatever other writers did in between. */
  method ApplyDecision(board: Board, id: TaskId, d: Completion.Decision, backed: string -> bool,
                       context: Option<string>, parking: Option<string>, allowBlocked: bool, seen: Seen, now: int)
    returns (outcome: Outcome)
    modifies board
    ensures board.links == old(board.links)
    ensures outcome.Applied? <==>
              && Admitted(id, seen, d, backed, allowBlocked) && ContextFits(seen, d, context)
              && WriteFires(old(board.tasks), old(board.links), id, seen.row.value.row.status)
    ensures !outcome.Applied? ==>
              board.tasks == old(board.tasks) && board.events == old(board.events) && board.comments == old(board.comments)
    ensures outcome.Applied? ==>
              && outcome.status == StatusName(d.desired.value)
              && board.events == AppendEvent(old(board.events), id, "github_pr_sync",
                                             Evidence(d, seen.row.value.row.status, outcome.status), now)
    ensures outcome.Applied? && d.desired == Some(Completion.Done) ==>
              && board.tasks == old(board.tasks)[id := old(board.tasks)[id].(row := Finished(old(board.tasks)[id].row, now))]
              && board.comments == old(board.comments)
    ensures outcome.Applied? && d.desired == Some(Completion.Review) ==>
              && board.comments == (if parking.None? then old(board.comments)
                                    else Mark(old(board.comments), id, parking.value, now))
              && board.tasks == old(board.tasks)[id := Task(Parked(old(board.tasks)[id].row),
                                                            if context.None? then seen.row.value.body
                                                            else SyncContext.Replace(SyncContext.SYNC, seen.row.value.body, context.value).value)]
    ensures outcome.RecheckPending? ==>
              && seen.row.Some?
              && !WriteFires(old(board.tasks), old(board.links), id, seen.row.value.row.status)
              && !ParentsTerminal(seen.gate.tasks, seen.gate.links, id)
  {
    hide Evidence, Mark, AppendEvent, ParentRows, DependencyGate.SortIds, DependencyGate.ParentStatuses, DependencyGate.GuardCount, SyncContext.Replace;
    if seen.row.None? { return TaskMissing; }
    var row := seen.row.value;
    var current := row.row.status;
    if !backed(row.body) { return NotGithubBacked; }
    if d.desired.None? { return NotAuthoritative; }
    var desired := StatusName(d.desired.value);
    if current == desired { return Idempotent; }
    if current in PRESERVED && !(allowBlocked && current == "blocked") { return StatePreserved; }
    var gate := DependencyGate.InternalDependencyGate(seen.gate.tasks, seen.gate.links, id);
    if gate.Err? { return RecheckFailed(gate.error); }
    var body := row.body;
    if d.desired.value.Review? && context.Some? {
      var replaced := SyncContext.Replace(SyncContext.SYNC, row.body, context.value);
      if replaced.None? { return ContextUnpackable; }
      body := replaced.value;
    }
    DependencyGate.GuardAgreesWithGate(board.tasks, board.links, id);
    if id !in board.tasks || board.tasks[id].row.status != current
       || DependencyGate.GuardCount(board.tasks, board.links, id) != 0
    {
      // The statement affected no row.
      if gate.value.pending != [] { return RecheckPending; }
      return StateChanged;
    }
    var task := board.tasks[id];
    if d.desired.value.Review? {
      board.tasks := board.tasks[id := Task(Parked(task.row), body)];
      if parking.Some? {
        board.comments := Mark(board.comments, id, parking.value, now);
      }
    } else {
      board.tasks := board.tasks[id := task.(row := Finished(task.row, now))];
    }
    board.events := AppendEvent(board.events, id, "github_pr_sync", Evidence(d, current, desired), now);
    return Applied(desired);
  }
}
