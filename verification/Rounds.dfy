/** The rework-round protocol of one card: labels and retry comments on GitHub
    are one-shot commands, rounds and deliveries are entries of the event log. */
module ReworkRounds {
  import opened Prelude
  import opened Provenance

  // ------------------------------------------------------------------ commands

  /** A `labeled` event of the timeline; the id is absent when it is malformed. */
  datatype LabelEvent = LabelEvent(at: int, actor: string, id: Option<int>)

  /** `a` decides over `b`: newer, or equally new and ambiguous or of larger id. */
  predicate Outranks(a: LabelEvent, b: LabelEvent) {
    || a.at > b.at
    || (a.at == b.at && (a.id.None? || (b.id.Some? && a.id.value >= b.id.value)))
  }

  /** `_latest_labeled_event`: one event without an id makes its second ambiguous. */
  function LatestLabel(events: seq<LabelEvent>): (latest: Option<LabelEvent>)
    ensures latest.None? <==> events == []
    ensures latest.Some? ==> latest.value in events && forall e :: e in events ==> e.at <= latest.value.at
    ensures latest.Some? && latest.value.id.Some? ==>
              forall e :: e in events && e.at == latest.value.at ==> e.id.Some? && e.id.value <= latest.value.id.value
  {
    if events == [] then None
    else
      var rest := LatestLabel(events[1..]);
      assert forall e :: e in events <==> e == events[0] || e in events[1..];
      if rest.Some? && !Outranks(events[0], rest.value) then rest else Some(events[0])
  }

  /** `_label_event_is_newer_than_baseline`: is the command newer than the round
      written at `eventAt` for the command `(boundAt, boundId)`? */
  predicate NewerThanBaseline(command: LabelEvent, eventAt: int, boundAt: Option<int>, boundId: Option<int>) {
    if command.id.None? then false
    else
      var bound := if boundAt.Some? then boundAt.value else 0;
      var baseline := if eventAt < bound then bound else eventAt;
      if command.at > baseline then true
      else if command.at < baseline then false
      else if boundAt.None? || command.at != boundAt.value || eventAt > boundAt.value then false
      else if boundId.None? then false
      else command.id.value > boundId.value
  }

  datatype PullRequest = PullRequest(number: int, head: string, open: bool, labelled: bool, events: seq<LabelEvent>)

  datatype Request =
    | NoRequest
    | MultiplePrs
    | EventMissing(pr: PullRequest)
    | IdentityMissing(pr: PullRequest)
    | UntrustedActor(pr: PullRequest)
    | ClaimPending(pr: PullRequest)
    | IssueNotReady(pr: PullRequest)
    | AgentRework(pr: PullRequest, command: LabelEvent)

  function Labelled(prs: seq<PullRequest>): (labelled: seq<PullRequest>)
    ensures forall p :: p in labelled <==> p in prs && p.open && p.labelled
  {
    if prs == [] then []
    else (if prs[0].open && prs[0].labelled then [prs[0]] else []) + Labelled(prs[1..])
  }

  // ------------------------------------------------------------------- the log

  /** The payload of a rework event.  `retry` is the comment that triggered it. */
  datatype Round = Round(repository: string, issue: int, pr: int, number: int, head: string,
                         request: Option<int>, retry: Option<int>, labelAt: Option<int>, labelId: Option<int>)

  /** Entries stand in id order. */
  datatype Entry =
    | Opened(at: int, round: Round)
    | Requeued(at: int, round: Round)
    | Delivered(at: int, number: int, request: Option<int>, head: string)
    | Attention(at: int)

  predicate Governing(e: Entry) {
    e.Opened? || e.Requeued?
  }

  /** DB timestamps do not decrease. */
  ghost predicate Ordered(log: seq<Entry>) {
    forall i, j :: 0 <= i < j < |log| ==> log[i].at <= log[j].at
  }

  /** `_latest_rework_event`: newest by `(created_at, id)`. */
  function LatestEvent(log: seq<Entry>): (latest: Option<nat>)
    ensures latest.None? <==> forall i :: 0 <= i < |log| ==> !Governing(log[i])
    ensures latest.Some? ==>
              && latest.value < |log| && Governing(log[latest.value])
              && forall i :: 0 <= i < |log| && Governing(log[i]) ==>
                   log[i].at < log[latest.value].at || (log[i].at == log[latest.value].at && i <= latest.value)
  {
    if log == [] then None
    else
      var n := |log| - 1;
      var rest := LatestEvent(log[..n]);
      if Governing(log[n]) && (rest.None? || log[n].at >= log[rest.value].at) then Some(n) else rest
  }

  function CountOpened(log: seq<Entry>): (n: nat)
    ensures n <= |log|
  {
    if log == [] then 0
    else CountOpened(log[..|log| - 1]) + if log[|log| - 1].Opened? then 1 else 0
  }

  /** `_consumed_retry_comment_ids`. */
  function ConsumedRetries(log: seq<Entry>): (ids: set<int>) {
    set e | e in log && e.Opened? && e.round.retry.Some? :: e.round.retry.value
  }

  /** `evaluate_rework`, over the newest round and the PRs of the decision. */
  function Evaluate(status: string, prs: seq<PullRequest>, trusted: set<string>, issueReady: bool, log: seq<Entry>): (request: Request)
    ensures request.AgentRework? <==>
              && status in {"review", "ready", "blocked"} && issueReady && |Labelled(prs)| == 1
              && LatestLabel(Labelled(prs)[0].events).Some?
              && LatestLabel(Labelled(prs)[0].events).value.actor in trusted
              && FreshLabel(log, LatestLabel(Labelled(prs)[0].events).value)
    ensures request.MultiplePrs? <==> status in {"review", "ready", "blocked"} && |Labelled(prs)| > 1
    ensures request.NoRequest? <==> status !in {"review", "ready", "blocked"} || forall p :: p in prs ==> !(p.open && p.labelled)
    ensures request.EventMissing? ==> LatestLabel(request.pr.events).None?
    ensures request.IdentityMissing? ==> LatestLabel(request.pr.events).Some? && LatestLabel(request.pr.events).value.id.None?
    ensures request.UntrustedActor? ==> LatestLabel(request.pr.events).Some? && LatestLabel(request.pr.events).value.actor !in trusted
    ensures request.ClaimPending? ==> LatestLabel(request.pr.events).Some? && !FreshLabel(log, LatestLabel(request.pr.events).value)
    ensures request.IssueNotReady? ==> !issueReady
    ensures request.AgentRework? ==>
              && status in {"review", "ready", "blocked"} && issueReady
              && request.pr in prs && request.pr.open && request.pr.labelled
              && (forall p :: p in prs && p.open && p.labelled ==> p == request.pr)
              && LatestLabel(request.pr.events) == Some(request.command)
              && request.command.actor in trusted
              && FreshLabel(log, request.command)
  {
    if status !in {"review", "ready", "blocked"} then NoRequest
    else
      var labelled := Labelled(prs);
      if |labelled| == 0 then NoRequest
      else
      assert labelled[0] in labelled;
      if |labelled| > 1 then MultiplePrs
      else
        var pr := labelled[0];
        var latest := LatestLabel(pr.events);
        if latest.None? then EventMissing(pr)
        else if latest.value.id.None? then IdentityMissing(pr)
        else if latest.value.actor !in trusted then UntrustedActor(pr)
        else if !FreshLabel(log, latest.value) then ClaimPending(pr)
        else if !issueReady then IssueNotReady(pr)
        else AgentRework(pr, latest.value)
  }

  /** The command is identified and newer than the round in force, if any. */
  predicate FreshLabel(log: seq<Entry>, command: LabelEvent) {
    && command.id.Some?
    && (LatestEvent(log).Some? ==>
          var e := log[LatestEvent(log).value];
          NewerThanBaseline(command, e.at, e.round.labelAt, e.round.labelId))
  }

  /** Freshness, read off the log.  Before any round, every identified command is
      fresh.  Otherwise it must be later than both the event in force and the
      command that opened its round; or it falls into that command's second, in
      which the event was already written, and carries the larger id. */
  lemma FreshWhen(log: seq<Entry>, command: LabelEvent)
    ensures LatestEvent(log).None? ==> (FreshLabel(log, command) <==> command.id.Some?)
    ensures LatestEvent(log).Some? ==>
              var e := log[LatestEvent(log).value];
              FreshLabel(log, command) <==>
                && command.id.Some?
                && ( (command.at > e.at && command.at > (if e.round.labelAt.Some? then e.round.labelAt.value else 0))
                  || ( && e.round.labelAt == Some(command.at) && e.at <= command.at
                       && e.round.labelId.Some? && command.id.value > e.round.labelId.value))
  {}

  /** A comment on the PR: its time when it parses, and whether its author is
      trusted and its lines are exactly the marker and this task's binding. */
  datatype Comment = Comment(id: int, at: Option<int>, trusted: bool, exact: bool)

  predicate Signals(c: Comment, baseline: int, consumed: set<int>) {
    c.trusted && c.at.Some? && c.at.value > baseline && c.id !in consumed && c.exact
  }

  predicate IsNewestSignal(comments: seq<Comment>, k: nat, baseline: int, consumed: set<int>)
    requires k < |comments|
  {
    Signals(comments[k], baseline, consumed) && forall j :: k < j < |comments| ==> !Signals(comments[j], baseline, consumed)
  }

  /** `_find_rework_retry_signal`: comments are looked through from the newest. */
  method FindRetrySignal(comments: seq<Comment>, baseline: int, consumed: set<int>) returns (signal: Option<Comment>)
    ensures signal.None? <==> forall c :: c in comments ==> !Signals(c, baseline, consumed)
    ensures signal.Some? ==> exists k :: 0 <= k < |comments| && IsNewestSignal(comments, k, baseline, consumed) && comments[k] == signal.value
    ensures signal.Some? ==>
              && signal.value.trusted && signal.value.exact && signal.value.id !in consumed
              && signal.value.at.Some? && signal.value.at.value > baseline
    ensures signal.None? ==> forall c :: c in comments && c.trusted && c.exact && c.id !in consumed && c.at.Some? ==> c.at.value <= baseline
  {
    var k := |comments|;
    while k > 0
      invariant 0 <= k <= |comments|
      invariant forall j :: k <= j < |comments| ==> !Signals(comments[j], baseline, consumed)
    {
      k := k - 1;
      if Signals(comments[k], baseline, consumed) {
        return Some(comments[k]);
      }
    }
    signal := None;
  }

  // ------------------------------------------------------------------ the card

  const RESERVED_ASSIGNEE := "__github_edge_rework_dispatcher__"

  datatype Outcome = TaskMissing | StateChanged | Reopened(number: int)

  /** The columns that a rework touches. */
  datatype Row = Row(status: string, assignee: Option<string>, completedAt: Option<int>, claimLock: Option<string>,
                     claimExpires: Option<int>, workerPid: Option<int>, blockKind: Option<string>, blockRecurrences: int, body: string)

  /** What `apply_rework` and the requeue write, as functions of the state. */
  function ReopenedRow(row: Row, body: string): (reopened: Row) {
    Row("ready", Some(RESERVED_ASSIGNEE), None, None, None, None, None, 0, body)
  }

  class Card {
    var row: Option<Row>
    var log: seq<Entry>
    var contracts: nat

    constructor (row: Option<Row>, log: seq<Entry>)
      ensures this.row == row && this.log == log && contracts == 0
    {
      this.row, this.log, contracts := row, log, 0;
    }

    /** `apply_rework`: one transaction moves the card to READY, reserves it for
        the edge lane and opens the next round; a refusal changes nothing. */
    method ApplyRework(now: int, ref: GithubTaskRef, pr: int, head: string, request: Option<int>, retry: Option<int>,
                       command: Option<LabelEvent>, body: string)
      returns (outcome: Outcome)
      modifies this
      ensures outcome.TaskMissing? <==> old(row).None?
      ensures outcome.StateChanged? <==> old(row).Some? && old(row).value.status !in {"review", "blocked", "done"}
      ensures !outcome.Reopened? ==> row == old(row) && log == old(log) && contracts == old(contracts)
      ensures outcome.Reopened? ==>
                && row == Some(ReopenedRow(old(row).value, body))
                && log == old(log) + [Opened(now, NewRound(old(log), ref, pr, head, request, retry, command))]
                && contracts == old(contracts) + 1
                && outcome.number == CountOpened(log)
      ensures outcome.Reopened? ==>
                && row.value.status == "ready" && row.value.assignee == Some("__github_edge_rework_dispatcher__")
                && row.value.completedAt.None? && row.value.claimLock.None? && row.value.claimExpires.None? && row.value.workerPid.None?
                && row.value.blockKind.None? && row.value.blockRecurrences == 0 && row.value.body == body
    {
      if row.None? {
        return TaskMissing;
      }
      if row.value.status !in {"review", "blocked", "done"} {
        return StateChanged;
      }
      row := Some(ReopenedRow(row.value, body));
      var round := NewRound(log, ref, pr, head, request, retry, command);
      assert (log + [Opened(now, round)])[..|log|] == log;
      log := log + [Opened(now, round)];
      contracts := contracts + 1;
      outcome := Reopened(round.number);
    }
  }

  /** The payload of the event that opens a round: its number follows the count. */
  function NewRound(log: seq<Entry>, ref: GithubTaskRef, pr: int, head: string, request: Option<int>, retry: Option<int>,
                    command: Option<LabelEvent>): (round: Round)
  {
    Round(ref.repository, ref.issueNumber, pr, CountOpened(log) + 1, head, request, retry,
          if command.Some? then Some(command.value.at) else None, if command.Some? then command.value.id else None)
  }

  // ------------------------------------------------------- the round's delivery

  /** `_validate_rework_event`, for the repository, Issue and PR in hand. */
  predicate ValidRound(round: Round, ref: Option<GithubTaskRef>, pr: Option<int>) {
    && (ref.Some? ==> round.repository == ref.value.repository && round.issue == ref.value.issueNumber)
    && round.pr > 0 && (pr.Some? ==> round.pr == pr.value)
    && round.number > 0 && IsFullSha(round.head)
    && (round.request.Some? ==> round.request.value > 0)
    && (round.retry.Some? ==> round.retry.value > 0 && round.request == round.retry)
  }

  /** A round is valid for an Issue and a request when it names them, with a request
      number, a round number and a full head, and with positive comment ids, the
      retry being the request. */
  lemma ValidRoundWhen(round: Round, asked: GithubTaskRef, askedPr: int)
    ensures ValidRound(round, Some(asked), Some(askedPr)) <==>
              && round.repository == asked.repository && round.issue == asked.issueNumber && round.pr == askedPr
              && askedPr >= 1 && round.number >= 1 && |round.head| == 40 && (forall i :: 0 <= i < 40 ==> IsHexDigit(round.head[i]))
              && (round.request.Some? ==> round.request.value >= 1)
              && (round.retry.Some? ==> round.retry.value >= 1 && round.request == round.retry)
  {}

  /** What `apply_rework` writes is a valid rework event exactly for its own
      repository, Issue and pull request, given a full head and positive ids. */
  lemma NewRoundIsValid(log: seq<Entry>, ref: GithubTaskRef, pr: int, head: string, request: Option<int>, retry: Option<int>,
                        command: Option<LabelEvent>, asked: GithubTaskRef, askedPr: int)
    ensures ValidRound(NewRound(log, ref, pr, head, request, retry, command), Some(asked), Some(askedPr)) <==>
              && asked.repository == ref.repository && asked.issueNumber == ref.issueNumber && askedPr == pr
              && pr > 0 && |head| == 40 && (forall i :: 0 <= i < 40 ==> IsHexDigit(head[i]))
              && (request.Some? ==> request.value > 0)
              && (retry.Some? ==> retry.value > 0 && request == retry)
  {}

  /** A delivery that speaks for the round of event `e`. */
  predicate Delivers(d: Entry, e: Entry)
    requires Governing(e)
  {
    && d.Delivered? && d.at >= e.at
    && d.number == e.round.number && d.request == e.round.request
    && (Folded(d.head) == Folded(e.round.head) ==> e.round.retry.Some?)
  }

  /** The newest entry that speaks for the round of `e`. */
  function CurrentDelivery(log: seq<Entry>, e: Entry, ref: Option<GithubTaskRef>, pr: Option<int>): (k: Option<nat>)
    requires Governing(e)
    ensures k.Some? ==> k.value < |log| && ValidRound(e.round, ref, pr) && Delivers(log[k.value], e)
    ensures k.Some? ==> forall j :: k.value < j < |log| ==> !Delivers(log[j], e)
    ensures k.None? <==> !ValidRound(e.round, ref, pr) || forall j :: 0 <= j < |log| ==> !Delivers(log[j], e)
  {
    if !ValidRound(e.round, ref, pr) || log == [] then None
    else if Delivers(log[|log| - 1], e) then Some(|log| - 1)
    else CurrentDelivery(log[..|log| - 1], e, ref, pr)
  }

  lemma NothingSpeaksBefore(log: seq<Entry>, e: Entry, i: nat)
    requires Governing(e) && Ordered(log) && i < |log| && log[i].at < e.at
    ensures forall j :: 0 <= j <= i ==> !Delivers(log[j], e)
  {
    forall j | 0 <= j <= i ensures !Delivers(log[j], e) {
      assert log[j].at <= log[i].at;
    }
  }

  lemma NewestSpeaker(log: seq<Entry>, e: Entry, ref: Option<GithubTaskRef>, pr: Option<int>, k: Option<nat>)
    requires Governing(e) && ValidRound(e.round, ref, pr)
    requires k.Some? ==> k.value < |log| && Delivers(log[k.value], e) && forall j :: k.value < j < |log| ==> !Delivers(log[j], e)
    requires k.None? ==> forall j :: 0 <= j < |log| ==> !Delivers(log[j], e)
    ensures CurrentDelivery(log, e, ref, pr) == k
  {
    hide Delivers, ValidRound;
  }

  /** One row, read against the round: number and request must agree, and the head
      must have moved, unless a maintainer asked again. */
  method Speaks(row: Entry, e: Entry) returns (yes: bool)
    requires Governing(e) && row.Delivered? && row.at >= e.at
    ensures yes <==> Delivers(row, e)
  {
    hide Folded;
    if row.number != e.round.number || row.request != e.round.request {
      return false;
    }
    if Folded(row.head) == Folded(e.round.head) {
      return e.round.retry.Some?;
    }
    return true;
  }

  /** `_current_round_delivery`, over rows in `(created_at, id)` order. */
  method CurrentRoundDelivery(log: seq<Entry>, e: Entry, ref: Option<GithubTaskRef>, pr: Option<int>) returns (k: Option<nat>)
    requires Governing(e) && Ordered(log)
    ensures k == CurrentDelivery(log, e, ref, pr)
  {
    if !ValidRound(e.round, ref, pr) {
      return None;
    }
    var i := |log|;
    while i > 0
      invariant 0 <= i <= |log|
      invariant forall j :: i <= j < |log| ==> !Delivers(log[j], e)
    {
      hide ValidRound, Ordered, CurrentDelivery;
      i := i - 1;
      var row := log[i];
      if !row.Delivered? {
        continue;
      }
      if row.at < e.at {
        NothingSpeaksBefore(log, e, i);
        break;
      }
      var yes := Speaks(row, e);
      if yes {
        NewestSpeaker(log, e, ref, pr, Some(i));
        return Some(i);
      }
    }
    NewestSpeaker(log, e, ref, pr, None);
    k := None;
  }
}
