/** Sync passes over one card while GitHub stands still: one step for each exit of
    a pass that changes the card's status or its log.  Which exit a pass takes also
    depends on labels, which passes edit themselves; any exit whose other guards
    hold is allowed here. */
module Quiescence {
  import opened Prelude
  import opened ReworkRounds
  import opened DeliveryGate
  import T = RoundTheorems
  import C = Completion
  import S = SyncPass
  import KanbanBoard
  import EventLog
  import Projection

  /** What GitHub shows: the requests and the Issue behind the verdict, and every
      one-shot command that a pass could consume. */
  datatype World = World(ref: GithubTaskRef, prs: Option<seq<C.PullRequest>>, linked: set<int>, issue: Option<C.IssueState>,
                         issueReady: bool, trusted: set<string>, commands: set<LabelEvent>, retries: set<int>,
                         signals: set<int>, response: Option<string>)

  /** The card: its row, its rework log, and the one-shot evidence on record.
      `pending` counts the parents that are not terminal. */
  datatype CardState = CardState(status: string, active: bool, log: seq<Entry>, superseded: set<int>, signals: set<int>,
                                 resumed: Option<string>, priorDone: bool, pending: nat)

  function Verified(w: World): (d: C.Decision) {
    C.Verify(w.ref, w.prs, w.linked, w.issue).0
  }

  /** The verdict of a pass that finds the card in this state. */
  function Verdict(w: World, c: CardState): (d: C.Decision) {
    S.VerdictOf(c.priorDone, c.superseded, w.ref, c.status, Verified(w))
  }

  function Name(d: C.Desired): (status: string) {
    match d case Review => "review" case Done => "done"
  }

  predicate IsOnlyPr(prs: seq<C.PullRequest>, i: nat, number: int)
    requires i < |prs|
  {
    prs[i].number == number && forall j :: 0 <= j < |prs| && j != i ==> prs[j].number != number
  }

  /** `_rework_context` resolves the round's pull request, and it is open. */
  ghost predicate OpenContext(w: World, c: CardState) {
    && LatestEvent(c.log).Some?
    && var e := c.log[LatestEvent(c.log).value];
       && ValidRound(e.round, Some(w.ref), None)
       && exists i :: 0 <= i < |Verdict(w, c).prs| && IsOnlyPr(Verdict(w, c).prs, i, e.round.pr) && Verdict(w, c).prs[i].state == C.Open
  }

  /** The exits of a pass, and what others do between passes. */
  datatype Exit =
    | Restore
    | Converge
    | Project
    | ProjectBlocked
    | LabelRound(now: int, prs: seq<PullRequest>)
    | RetryRound(now: int, prNumber: int, head: string, baseline: int, comment: Comment)
    | Supersede(signal: int)
    | Resume
    | Deliver(gate: T.Step)
    | Requeue(now: int, gate: T.Step, autoBlocked: bool)
    | Record(entry: T.Step)
    | Nothing
    | ParentsClose(left: nat)
    | Elsewhere(status: string, active: bool, pending: nat)

  const READY := "ready"

  /** `_terminal_convergence_evidence` qualifies. */
  predicate MergedAndClosed(w: World) {
    && Verified(w).desired == Some(C.Done) && Verified(w).prs != []
    && (forall pr :: pr in Verified(w).prs ==> C.MergedIntoTarget(w.ref, pr))
    && w.issue == Some(C.IssueClosed)
  }

  /** An intake root waits for its parents again. */
  ghost predicate RestoreExit(w: World, c: CardState, c': CardState) {
    c.pending > 0 && c.status in {"review", "done"} && c' == c.(status := "todo")
  }

  /** Terminal merge convergence finishes the parents with the root. */
  ghost predicate ConvergeExit(w: World, c: CardState, c': CardState) {
    c.pending > 0 && c.status in {"todo", "review"} && MergedAndClosed(w) && c' == c.(status := "done", pending := 0)
  }

  /** `apply_decision` from review or done, also as the repair of a done card whose
      pull request is open. */
  ghost predicate ProjectExit(w: World, c: CardState, c': CardState) {
    && c.pending == 0 && c.status in {"review", "done"}
    && var d := Verdict(w, c);
       && d.desired.Some? && Name(d.desired.value) != c.status
       && c' == c.(status := Name(d.desired.value),
                   priorDone := c.priorDone || (d.desired == Some(C.Done) && d.reason in {C.AllLinkedPrsMerged, C.AuthoritativeDonePreserved}))
  }

  /** Blocked reconciliation: merged evidence, or an open request to review. */
  ghost predicate ProjectBlockedExit(w: World, c: CardState, c': CardState) {
    && c.pending == 0 && c.status == "blocked"
    && var d := Verdict(w, c);
       && (d.desired == Some(C.Done) || (d.desired == Some(C.Review) && C.SomeOpen(d.prs)))
       && c' == c.(status := Name(d.desired.value),
                   priorDone := c.priorDone || (d.desired == Some(C.Done) && d.reason in {C.AllLinkedPrsMerged, C.AuthoritativeDonePreserved}))
  }

  /** `apply_rework` for a label command, in review or blocked. */
  ghost predicate LabelExit(w: World, c: CardState, c': CardState, now: int, prs: seq<PullRequest>) {
    && c.pending == 0 && c.status in {"review", "blocked"}
    && (forall pr, e :: pr in prs && e in pr.events ==> e in w.commands)
    && (forall pr :: pr in prs ==> exists q :: q in Verdict(w, c).prs && q.number == pr.number && q.headSha == pr.head
                                               && (pr.open <==> q.state == C.Open))
    && var request := Evaluate(c.status, prs, w.trusted, w.issueReady, c.log);
       && request.AgentRework?
       && T.Next(c.log, c'.log, T.ByLabel(now, w.ref, request.pr, request.command))
       && c' == c.(status := READY, log := c'.log)
  }

  /** `apply_rework` for a maintainer's retry comment. */
  ghost predicate RetryExit(w: World, c: CardState, c': CardState, now: int, prNumber: int, head: string, baseline: int, comment: Comment) {
    && c.pending == 0 && c.status in {"review", "done", "blocked"} && OpenContext(w, c) && w.issueReady && comment.id in w.retries
    && prNumber == c.log[LatestEvent(c.log).value].round.pr && baseline >= c.log[LatestEvent(c.log).value].at
    && T.Next(c.log, c'.log, T.ByRetry(now, w.ref, prNumber, head, baseline, comment))
    && c' == c.(status := READY, log := c'.log)
  }

  /** `apply_supersede`: the only linked request is closed and unmerged. */
  ghost predicate SupersedeExit(w: World, c: CardState, c': CardState, signal: int) {
    && c.pending == 0 && c.status in {"review", "blocked"} && w.issueReady
    && Verified(w).desired.Some? && |Verified(w).prs| == 1 && C.ClosedUnmerged(w.ref, Verified(w).prs[0])
    && Verified(w).prs[0].number !in c.superseded
    && signal in w.signals && signal !in c.signals
    && c' == c.(status := READY, superseded := c.superseded + {Verified(w).prs[0].number}, signals := c.signals + {signal})
  }

  /** `apply_blocked_resume`: a trusted response that was not the last one used. */
  ghost predicate ResumeExit(w: World, c: CardState, c': CardState) {
    && c.pending == 0 && c.status == "blocked" && w.issueReady && Verdict(w, c).prs == []
    && w.response.Some? && c.resumed != w.response
    && c' == c.(status := READY, resumed := w.response)
  }

  /** `_delivery_review_transition`: an accepted delivery of a card whose worker is gone. */
  ghost predicate DeliverExit(w: World, c: CardState, c': CardState, gate: T.Step) {
    && c.pending == 0 && (c.status == "blocked" || (c.status == "running" && !c.active)) && OpenContext(w, c)
    && gate.Deliver? && gate.ref == w.ref && T.Next(c.log, c'.log, gate)
    && c' == c.(status := "review", log := c'.log)
  }

  /** `_requeue_rework_task`: the delivery is not accepted, the round goes back, and
      the breaker may block it.  Rows it does not cover only get the retry event. */
  ghost predicate RequeueExit(w: World, c: CardState, c': CardState, now: int, gate: T.Step, autoBlocked: bool) {
    && c.pending == 0 && c.status !in {READY, "review", "blocked", "archived"} && !(c.status == "running" && c.active)
    && OpenContext(w, c) && gate.Deliver? && gate.ref == w.ref && gate.prNumber == c.log[LatestEvent(c.log).value].round.pr
    && T.Accepted(c.log[LatestEvent(c.log).value], gate).Err?
    && T.Next(c.log, c'.log, T.Requeue(now))
    && c' == c.(log := c'.log, status := if autoBlocked then "blocked" else if c.status in {"done", "running"} then READY else c.status)
  }

  /** Attention records, and deliveries noted beside an unchanged status. */
  ghost predicate RecordExit(c: CardState, c': CardState, entry: T.Step) {
    (entry.Note? || entry.Deliver?) && T.Next(c.log, c'.log, entry) && c' == c.(log := c'.log)
  }

  ghost predicate Next(w: World, c: CardState, c': CardState, exit: Exit) {
    match exit
    case Restore => RestoreExit(w, c, c')
    case Converge => ConvergeExit(w, c, c')
    case Project => ProjectExit(w, c, c')
    case ProjectBlocked => ProjectBlockedExit(w, c, c')
    case LabelRound(now, prs) => LabelExit(w, c, c', now, prs)
    case RetryRound(now, prNumber, head, baseline, comment) => RetryExit(w, c, c', now, prNumber, head, baseline, comment)
    case Supersede(signal) => SupersedeExit(w, c, c', signal)
    case Resume => ResumeExit(w, c, c')
    case Deliver(gate) => DeliverExit(w, c, c', gate)
    case Requeue(now, gate, autoBlocked) => RequeueExit(w, c, c', now, gate, autoBlocked)
    case Record(entry) => RecordExit(c, c', entry)
    case Nothing => c' == c
    case ParentsClose(left) => left <= c.pending && c' == c.(pending := left)
    case Elsewhere(status, active, pending) => c' == c.(status := status, active := active, pending := pending)
  }

  // ------------------------------------------------------ what the exits stand for

  /** The pull requests of the evaluation are those of the verdict, with commands
      that the world holds. */
  ghost predicate Mirrors(w: World, d: C.Decision, prs: seq<PullRequest>) {
    forall pr :: pr in prs ==>
      && (exists q :: q in d.prs && q.number == pr.number && q.headSha == pr.head && (q.state == C.Open <==> pr.open))
      && forall e :: e in pr.events ==> e in w.commands
  }

  /** The log allows a new entry at this time. */
  ghost predicate InTime(log: seq<Entry>, now: int) {
    forall e :: e in log ==> e.at <= now
  }

  /** A label command that `evaluate_rework` authorises reopens the card and opens
      the next round, as `apply_rework` writes it. */
  lemma AuthorisedReworkReopens(w: World, c: CardState, now: int, prs: seq<PullRequest>, pr: PullRequest, command: LabelEvent)
    requires c.pending == 0 && c.status in {"review", "blocked"} && Mirrors(w, Verdict(w, c), prs) && InTime(c.log, now)
    requires Evaluate(c.status, prs, w.trusted, w.issueReady, c.log) == AgentRework(pr, command)
    ensures Next(w, c, c.(status := "ready", log := c.log + [Opened(now, NewRound(c.log, w.ref, pr.number, pr.head, None, None, Some(command)))]),
                 LabelRound(now, prs))
  {
    hide Evaluate, Verdict, FreshLabel;
    var c' := c.(status := "ready", log := c.log + [Opened(now, NewRound(c.log, w.ref, pr.number, pr.head, None, None, Some(command)))]);
    assert FreshLabel(c.log, command);
    assert T.Next(c.log, c'.log, T.ByLabel(now, w.ref, pr, command));
    forall p | p in prs ensures exists q :: q in Verdict(w, c).prs && q.number == p.number && q.headSha == p.head && (p.open <==> q.state == C.Open) {
      var q :| q in Verdict(w, c).prs && q.number == p.number && q.headSha == p.head && (q.state == C.Open <==> p.open);
    }
  }

  /** The event in force names a pull request that stands once in the verdict, open. */
  ghost predicate RoundIsOpen(w: World, c: CardState) {
    && LatestEvent(c.log).Some?
    && var round := c.log[LatestEvent(c.log).value].round;
       && round.repository == w.ref.repository && round.issue == w.ref.issueNumber && ValidRound(round, None, None)
       && exists k :: IsTheOpenOne(Verdict(w, c).prs, k, round.pr)
  }

  ghost predicate IsTheOpenOne(prs: seq<C.PullRequest>, k: int, number: int) {
    && 0 <= k < |prs| && prs[k].number == number && prs[k].state == C.Open
    && forall j :: 0 <= j < |prs| && prs[j].number == number ==> j == k
  }

  lemma RoundIsOpenContext(w: World, c: CardState)
    ensures RoundIsOpen(w, c) <==> OpenContext(w, c)
    ensures RoundIsOpen(w, c) ==> LatestEvent(c.log).Some?
  {
    hide Verdict;
    if RoundIsOpen(w, c) {
      var round := c.log[LatestEvent(c.log).value].round;
      var k :| IsTheOpenOne(Verdict(w, c).prs, k, round.pr);
      assert IsOnlyPr(Verdict(w, c).prs, k, round.pr);
    }
    if OpenContext(w, c) {
      var round := c.log[LatestEvent(c.log).value].round;
      var i :| 0 <= i < |Verdict(w, c).prs| && IsOnlyPr(Verdict(w, c).prs, i, round.pr) && Verdict(w, c).prs[i].state == C.Open;
      assert IsTheOpenOne(Verdict(w, c).prs, i, round.pr);
    }
  }

  /** A maintainer's retry comment, found as `_find_rework_retry_signal` finds it,
      reopens the card from review, done or blocked. */
  lemma RetryCommentReopens(w: World, c: CardState, now: int, head: string, baseline: int, comment: Comment)
    requires c.pending == 0 && c.status in {"review", "done", "blocked"} && RoundIsOpen(w, c) && w.issueReady && InTime(c.log, now)
    requires comment.id in w.retries && comment.trusted && comment.exact && comment.id !in ConsumedRetries(c.log)
    requires comment.at.Some? && comment.at.value > baseline >= c.log[LatestEvent(c.log).value].at
    ensures var pr := c.log[LatestEvent(c.log).value].round.pr;
            Next(w, c, c.(status := "ready", log := c.log + [Opened(now, NewRound(c.log, w.ref, pr, head, Some(comment.id), Some(comment.id), None))]),
                 RetryRound(now, pr, head, baseline, comment))
  {
    RoundIsOpenContext(w, c);
    hide OpenContext, RoundIsOpen;
  }

  /** A supersede signal sends the card back for its only linked request, closed
      without a merge, and puts that on record. */
  lemma SignalSupersedes(w: World, c: CardState, signal: int, pr: C.PullRequest)
    requires c.pending == 0 && c.status in {"review", "blocked"} && w.issueReady && Verified(w).desired.Some?
    requires Verified(w).prs == [pr] && pr.state == C.Closed && !C.Landed(w.ref, pr) && pr.number !in c.superseded
    requires signal in w.signals && signal !in c.signals
    ensures Next(w, c, c.(status := "ready", superseded := c.superseded + {pr.number}, signals := c.signals + {signal}), Supersede(signal))
  {
    hide Verified;
  }

  /** A trusted answer that was not the last one used resumes a blocked card with no
      pull request. */
  lemma ResponseResumes(w: World, c: CardState, response: string)
    requires c.pending == 0 && c.status == "blocked" && w.issueReady && Verdict(w, c).prs == []
    requires w.response == Some(response) && c.resumed != Some(response)
    ensures Next(w, c, c.(status := "ready", resumed := Some(response)), Resume)
  {
    hide Verdict;
  }

  /** An accepted delivery of a card whose worker is gone parks it for review. */
  lemma AcceptedDeliveryParks(w: World, c: CardState, gate: T.Step)
    requires c.pending == 0 && (c.status == "blocked" || (c.status == "running" && !c.active)) && RoundIsOpen(w, c)
    requires gate.Deliver? && gate.ref == w.ref && InTime(c.log, gate.now)
    requires T.Accepted(c.log[LatestEvent(c.log).value], gate).Ok?
    ensures var e := c.log[LatestEvent(c.log).value];
            Next(w, c, c.(status := "review", log := c.log + [Delivered(gate.now, e.round.number, e.round.request, T.Accepted(e, gate).value)]),
                 Deliver(gate))
  {
    RoundIsOpenContext(w, c);
    hide OpenContext, RoundIsOpen, T.Accepted;
  }

  /** A delivery that is not accepted sends a card that is done, or whose worker is
      gone, back to its lane, unless the breaker blocks it. */
  lemma RefusedDeliveryRequeues(w: World, c: CardState, now: int, gate: T.Step, autoBlocked: bool)
    requires c.pending == 0 && (c.status == "done" || (c.status == "running" && !c.active)) && RoundIsOpen(w, c) && InTime(c.log, now)
    requires gate.Deliver? && gate.ref == w.ref && gate.prNumber == c.log[LatestEvent(c.log).value].round.pr
    requires T.Accepted(c.log[LatestEvent(c.log).value], gate).Err?
    ensures Next(w, c, c.(status := if autoBlocked then "blocked" else "ready",
                          log := c.log + [Requeued(now, c.log[LatestEvent(c.log).value].round)]), Requeue(now, gate, autoBlocked))
  {
    RoundIsOpenContext(w, c);
    hide OpenContext, RoundIsOpen, T.Accepted;
  }

  /** Terminal convergence finishes a waiting root under a closed Issue whose
      requests all landed. */
  lemma MergedRootConverges(w: World, c: CardState)
    requires c.pending > 0 && c.status in {"todo", "review"} && w.issue == Some(C.IssueClosed)
    requires Verified(w).desired == Some(C.Done) && Verified(w).prs != [] && forall pr :: pr in Verified(w).prs ==> C.Landed(w.ref, pr)
    ensures Next(w, c, c.(status := "done", pending := 0), Converge)
  {
    hide Verified;
  }

  /** Blocked reconciliation completes a blocked card, or parks it when a request is open. */
  lemma BlockedCardIsProjected(w: World, c: CardState)
    requires c.pending == 0 && c.status == "blocked"
    ensures Verdict(w, c).desired == Some(C.Done) ==>
              Next(w, c, c.(status := "done", priorDone := c.priorDone || Verdict(w, c).reason == C.AllLinkedPrsMerged
                                                           || Verdict(w, c).reason == C.AuthoritativeDonePreserved), ProjectBlocked)
    ensures Verdict(w, c).desired == Some(C.Review) && (exists pr :: pr in Verdict(w, c).prs && pr.state == C.Open) ==>
              Next(w, c, c.(status := "review"), ProjectBlocked)
  {
    hide Verdict;
  }

  /** Workers, dispatchers and people may do anything to status, worker and parents,
      and nothing to the log or the evidence; parents may finish at any time. */
  lemma OthersAreFree(w: World, c: CardState, status: string, active: bool, pending: nat, left: nat)
    requires left <= c.pending
    ensures Next(w, c, CardState(status, active, c.log, c.superseded, c.signals, c.resumed, c.priorDone, pending),
                 Elsewhere(status, active, pending))
    ensures Next(w, c, c.(pending := left), ParentsClose(left))
  {}

  /** What each exit needs.  No exit but restore and convergence is open to a card
      with pending parents, and none reopens a card whose Issue is not ready. */
  lemma ExitsAreGuarded(w: World, c: CardState, c': CardState, exit: Exit)
    requires Next(w, c, c', exit)
    ensures exit.Restore? || exit.Converge? ==> c.pending > 0
    ensures exit.Project? || exit.ProjectBlocked? || exit.LabelRound? || exit.RetryRound? ==> c.pending == 0
    ensures exit.Supersede? || exit.Resume? || exit.Deliver? || exit.Requeue? ==> c.pending == 0
    ensures exit.LabelRound? || exit.RetryRound? || exit.Supersede? || exit.Resume? ==> w.issueReady && c'.status == "ready"
    ensures exit.LabelRound? || exit.Supersede? ==> c.status in {"review", "blocked"}
    ensures exit.RetryRound? ==> c.status in {"review", "done", "blocked"}
    ensures exit.Resume? || exit.ProjectBlocked? ==> c.status == "blocked"
    ensures exit.Deliver? ==> c.status == "blocked" || (c.status == "running" && !c.active)
    ensures exit.Requeue? ==> !(c.status == "running" && c.active)
    ensures exit.RetryRound? || exit.Deliver? || exit.Requeue? ==> RoundIsOpen(w, c)
    ensures exit.RetryRound? ==>
              && exit.prNumber == c.log[LatestEvent(c.log).value].round.pr && exit.baseline >= c.log[LatestEvent(c.log).value].at
              && exit.comment.trusted && exit.comment.exact && exit.comment.id !in ConsumedRetries(c.log)
    ensures exit.Resume? ==> Verdict(w, c).prs == [] && w.response.Some? && c.resumed != w.response
    ensures exit.Deliver? || exit.Requeue? ==> exit.gate.Deliver? && exit.gate.ref == w.ref
    ensures exit.Requeue? ==>
              && exit.gate.prNumber == c.log[LatestEvent(c.log).value].round.pr
              && T.Accepted(c.log[LatestEvent(c.log).value], exit.gate).Err?
              && (c.status !in {"done", "running"} && !exit.autoBlocked ==> c'.status == c.status)
    ensures exit.Supersede? ==>
              && Verified(w).desired.Some? && |Verified(w).prs| == 1
              && Verified(w).prs[0].state == C.Closed && !C.Landed(w.ref, Verified(w).prs[0]) && Verified(w).prs[0].number !in c.superseded
    ensures exit.Converge? ==>
              && w.issue == Some(C.IssueClosed) && Verified(w).desired == Some(C.Done) && Verified(w).prs != []
              && forall pr :: pr in Verified(w).prs ==> C.Landed(w.ref, pr)
  {
    RoundIsOpenContext(w, c);
    hide Verified, Verdict, RoundIsOpen, OpenContext, Evaluate, T.Accepted, FreshLabel;
  }

  // -------------------------------------------------------------------- the rank

  /** The verdict apart from the preservation of an earlier done. */
  function Base(w: World, c: CardState): (d: C.Decision) {
    S.VerdictOf(false, c.superseded, w.ref, "review", Verified(w))
  }

  /** How far a card without pending parents is from the status its verdict asks for. */
  function Distance(w: World, c: CardState): (n: nat)
    ensures n <= 2
  {
    if Base(w, c).desired == Some(C.Done) then (if c.status in {"review", "blocked"} then 1 else 0)
    else if C.SomeOpen(Base(w, c).prs) then (if c.status == "review" then 0 else if c.status == "blocked" then 1 else 2)
    else if c.status == "done" then 1 else 0
  }

  /** The status rank: how many changes the passes may still make. */
  function Rank(w: World, c: CardState): (n: nat)
    ensures n <= 4
  {
    if c.status == READY then 0
    else if c.pending > 0 then (if c.status in {"review", "done"} then 4 else 3)
    else 1 + Distance(w, c)
  }

  /** Preservation only ever keeps a done card done, and then links nothing. */
  lemma VerdictIsBase(w: World, c: CardState)
    ensures Verdict(w, c) == Base(w, c) || (c.status == "done" && Verdict(w, c).desired == Some(C.Done) && Verdict(w, c).prs == [])
  {
    hide C.Verify, C.Evaluate;
    if Verified(w).reason == C.NoLinkedPr {
      S.NoLinkedPrHasNoPrs(w.ref, w.prs, w.linked, w.issue);
    }
  }

  lemma OpenIsNotDone(ref: GithubTaskRef, given: seq<C.PullRequest>, linked: set<int>, issue: Option<C.IssueState>, superseded: set<int>)
    requires C.SomeOpen(C.Evaluate(ref, given, linked, issue, superseded).prs)
    ensures C.Evaluate(ref, given, linked, issue, superseded).desired != Some(C.Done)
  {
    hide C.SortByNumber, C.EffectivePrs, C.Lineage, C.UnresolvedNumbers;
  }

  /** A verdict over an open request is never done. */
  lemma OpenBaseIsNotDone(w: World, c: CardState)
    requires C.SomeOpen(Base(w, c).prs)
    ensures Base(w, c).desired != Some(C.Done)
  {
    hide C.Evaluate, C.UnresolvedNumbers, C.SupersededNumbers;
    if c.superseded != {} && Verified(w).desired.Some? {
      OpenIsNotDone(w.ref, Verified(w).prs, Verified(w).linked, None, c.superseded);
    } else if w.prs.Some? {
      var prs := w.prs.value;
      if C.SomeOpen(C.Evaluate(w.ref, prs, w.linked, None, {}).prs) { OpenIsNotDone(w.ref, prs, w.linked, None, {}); }
      if C.SomeOpen(C.Evaluate(w.ref, prs, w.linked, w.issue, {}).prs) { OpenIsNotDone(w.ref, prs, w.linked, w.issue, {}); }
    }
  }

  lemma EvaluateKeepsMembers(ref: GithubTaskRef, given: seq<C.PullRequest>, linked: set<int>, issue: Option<C.IssueState>, superseded: set<int>)
    ensures forall pr :: pr in C.Evaluate(ref, given, linked, issue, superseded).prs ==> pr in given
  {
    hide C.Judge;
  }

  /** Merged evidence leaves no open request. */
  lemma MergedHasNoneOpen(w: World, c: CardState)
    requires MergedAndClosed(w)
    ensures !C.SomeOpen(Base(w, c).prs)
  {
    hide C.Evaluate, C.Verify;
    EvaluateKeepsMembers(w.ref, Verified(w).prs, Verified(w).linked, None, c.superseded);
  }

  /** An open context shows an open request in the base verdict, and so that is not done. */
  lemma OpenContextIsOpen(w: World, c: CardState)
    requires OpenContext(w, c)
    ensures Verdict(w, c) == Base(w, c) && C.SomeOpen(Base(w, c).prs) && Base(w, c).desired != Some(C.Done)
  {
    hide C.Verify, C.Evaluate, S.VerdictOf, ValidRound;
    VerdictIsBase(w, c);
    OpenBaseIsNotDone(w, c) by {
      assert C.SomeOpen(Verdict(w, c).prs);
    }
  }

  // ----------------------------------------------------------- at most four changes

  /** Superseded numbers fix the base verdict. */
  lemma SameBase(w: World, c: CardState, c': CardState)
    requires c'.superseded == c.superseded
    ensures Base(w, c') == Base(w, c)
  {}

  lemma ProjectDrops(w: World, c: CardState, c': CardState)
    requires ProjectExit(w, c, c') || ProjectBlockedExit(w, c, c')
    ensures Rank(w, c') < Rank(w, c)
  {
    hide C.Verify, C.Evaluate, S.VerdictOf;
    VerdictIsBase(w, c);
    SameBase(w, c, c');
    hide Base, Verdict;
    if C.SomeOpen(Base(w, c).prs) { OpenBaseIsNotDone(w, c); }
  }

  lemma DeliverDrops(w: World, c: CardState, c': CardState, gate: T.Step)
    requires DeliverExit(w, c, c', gate)
    ensures Rank(w, c') < Rank(w, c)
  {
    hide C.Verify, C.Evaluate, S.VerdictOf, OpenContext, T.Next;
    OpenContextIsOpen(w, c);
    SameBase(w, c, c');
  }

  lemma RequeueDrops(w: World, c: CardState, c': CardState, now: int, gate: T.Step, autoBlocked: bool)
    requires RequeueExit(w, c, c', now, gate, autoBlocked)
    ensures if c'.status == c.status then Rank(w, c') == Rank(w, c) else Rank(w, c') < Rank(w, c)
  {
    hide C.Verify, C.Evaluate, S.VerdictOf, OpenContext, T.Next, T.Accepted;
    OpenContextIsOpen(w, c);
    SameBase(w, c, c');
  }

  lemma ConvergeDrops(w: World, c: CardState, c': CardState)
    requires ConvergeExit(w, c, c')
    ensures Rank(w, c') < Rank(w, c)
  {
    hide C.Verify, C.Evaluate, S.VerdictOf, MergedAndClosed, Base;
    MergedHasNoneOpen(w, c');
  }

  /** Every change of status by a pass lowers the rank; nothing a pass does raises it. */
  lemma RankFalls(w: World, c: CardState, c': CardState, exit: Exit)
    requires Next(w, c, c', exit) && !exit.Elsewhere?
    ensures Rank(w, c') <= Rank(w, c)
    ensures c'.status != c.status ==> Rank(w, c') < Rank(w, c)
  {
    hide C.Verify, C.Evaluate, S.VerdictOf, T.Next, T.Accepted, OpenContext, Base, Verdict, Evaluate, ProjectExit, ProjectBlockedExit,
         DeliverExit, RequeueExit, ConvergeExit;
    match exit
    case Project => ProjectDrops(w, c, c');
    case ProjectBlocked => ProjectDrops(w, c, c');
    case Deliver(gate) => DeliverDrops(w, c, c', gate);
    case Requeue(now, gate, autoBlocked) => RequeueDrops(w, c, c', now, gate, autoBlocked);
    case Converge => ConvergeDrops(w, c, c');
    case _ =>
      if c'.superseded == c.superseded { SameBase(w, c, c'); }
  }

  ghost predicate IsRun(w: World, cards: seq<CardState>, exits: seq<Exit>) {
    && |cards| == |exits| + 1
    && forall i :: 0 <= i < |exits| ==> Next(w, cards[i], cards[i + 1], exits[i])
  }

  /** Changes of status made by passes, and moves made elsewhere, in the first `n` steps. */
  function Changes(cards: seq<CardState>, exits: seq<Exit>, n: nat): (count: nat)
    requires |cards| == |exits| + 1 && n <= |exits|
  {
    if n == 0 then 0
    else Changes(cards, exits, n - 1) + if !exits[n - 1].Elsewhere? && cards[n].status != cards[n - 1].status then 1 else 0
  }

  function Moves(exits: seq<Exit>, n: nat): (count: nat)
    requires n <= |exits|
  {
    if n == 0 then 0 else Moves(exits, n - 1) + if exits[n - 1].Elsewhere? then 1 else 0
  }

  lemma {:induction false} ChangesFitRank(w: World, cards: seq<CardState>, exits: seq<Exit>, n: nat)
    requires IsRun(w, cards, exits) && n <= |exits|
    ensures Changes(cards, exits, n) + Rank(w, cards[n]) <= Rank(w, cards[0]) + 4 * Moves(exits, n)
  {
    hide Next, Rank;
    if n > 0 {
      ChangesFitRank(w, cards, exits, n - 1);
      if !exits[n - 1].Elsewhere? {
        RankFalls(w, cards[n - 1], cards[n], exits[n - 1]);
      }
    }
  }

  /** Quiescence: with GitHub frozen and no worker, dispatch or human step, any
      number of passes changes the card's status at most four times; and every step
      of the others buys at most four changes more. */
  lemma PassesSettle(w: World, cards: seq<CardState>, exits: seq<Exit>, n: nat)
    requires IsRun(w, cards, exits) && n <= |exits|
    ensures Changes(cards, exits, n) <= 4 * (Moves(exits, n) + 1)
    ensures (forall i :: 0 <= i < n ==> !exits[i].Elsewhere?) ==> Changes(cards, exits, n) <= 4
  {
    hide IsRun, Rank, Changes;
    ChangesFitRank(w, cards, exits, n);
    if forall i :: 0 <= i < n ==> !exits[i].Elsewhere? {
      NoMoves(exits, n);
    }
  }

  lemma {:induction false} NoMoves(exits: seq<Exit>, n: nat)
    requires n <= |exits| && forall i :: 0 <= i < n ==> !exits[i].Elsewhere?
    ensures Moves(exits, n) == 0
  {
    if n > 0 { NoMoves(exits, n - 1); }
  }

  // ------------------------------------------------------ the lexicographic measure

  /** The label commands that are newer than every one consumed so far. */
  ghost function FreshCommands(w: World, log: seq<Entry>): (newer: set<LabelEvent>) {
    set l | l in w.commands && NewerThanAll(log, l)
  }

  ghost predicate NewerThanAll(log: seq<Entry>, l: LabelEvent) {
    l.id.Some? && forall e :: e in log && T.ByCommand(e) ==>
      e.round.labelAt.value < l.at || (e.round.labelAt.value == l.at && e.round.labelId.value < l.id.value)
  }

  /** One-shot commands that could still open something. */
  ghost function Unconsumed(w: World, c: CardState): (n: nat) {
    |FreshCommands(w, c.log)| + |w.retries - ConsumedRetries(c.log)| + |w.signals - c.signals|
    + if w.response.Some? && c.resumed != w.response then 1 else 0
  }

  /** The log step behind an exit. */
  function LogStep(w: World, c: CardState, exit: Exit): (step: Option<T.Step>) {
    match exit
    case LabelRound(now, prs) =>
      var request := Evaluate(c.status, prs, w.trusted, w.issueReady, c.log);
      if request.AgentRework? then Some(T.ByLabel(now, w.ref, request.pr, request.command)) else None
    case RetryRound(now, prNumber, head, baseline, comment) => Some(T.ByRetry(now, w.ref, prNumber, head, baseline, comment))
    case Deliver(gate) => Some(gate)
    case Requeue(now, _, _) => Some(T.Requeue(now))
    case Record(entry) => Some(entry)
    case _ => None
  }

  ghost predicate StampedLate(w: World, c: CardState, exit: Exit) {
    LogStep(w, c, exit).Some? ==> T.RetriesStampedLate(c.log, LogStep(w, c, exit).value)
  }

  predicate Consumes(exit: Exit) {
    exit.LabelRound? || exit.RetryRound? || exit.Supersede? || exit.Resume?
  }

  /** The log changes as one of its writers changes it, or not at all. */
  lemma LogMoves(w: World, c: CardState, c': CardState, exit: Exit)
    requires Next(w, c, c', exit)
    ensures LogStep(w, c, exit).Some? ==> T.Next(c.log, c'.log, LogStep(w, c, exit).value)
    ensures LogStep(w, c, exit).None? ==> c'.log == c.log
  {
    hide T.Next, T.Accepted, Verdict, OpenContext, Evaluate;
  }

  lemma LogInvKept(w: World, c: CardState, c': CardState, exit: Exit)
    requires Next(w, c, c', exit) && T.LogInv(c.log) && StampedLate(w, c, exit)
    ensures T.LogInv(c'.log)
  {
    hide Next, T.Next, T.LogInv, LogStep, T.RetriesStampedLate;
    LogMoves(w, c, c', exit);
    if LogStep(w, c, exit).Some? {
      T.NextKeeps(c.log, c'.log, LogStep(w, c, exit).value);
    }
  }

  /** Appending never makes a command fresh or a comment unused again. */
  lemma AppendSpends(w: World, log: seq<Entry>, x: Entry)
    ensures FreshCommands(w, log + [x]) <= FreshCommands(w, log)
    ensures ConsumedRetries(log) <= ConsumedRetries(log + [x])
  {
    assert forall e :: e in log ==> e in log + [x];
  }

  /** A consumed label command was fresh, and is so no longer. */
  lemma LabelSpends(w: World, c: CardState, c': CardState, now: int, prs: seq<PullRequest>)
    requires LabelExit(w, c, c', now, prs) && T.LogInv(c.log)
    ensures FreshCommands(w, c'.log) < FreshCommands(w, c.log)
  {
    hide Verdict, T.BaseInv, T.CommandsIncrease, LatestEvent;
    var request := Evaluate(c.status, prs, w.trusted, w.issueReady, c.log);
    var l := request.command;
    var x := c'.log[|c.log|];
    T.NextAppends(c.log, c'.log, T.ByLabel(now, w.ref, request.pr, l));
    assert l in w.commands by { assert l in request.pr.events; }
    T.FreshIsIdentified(c.log, l);
    forall e | e in c.log && T.ByCommand(e)
      ensures e.round.labelAt.value < l.at || (e.round.labelAt.value == l.at && e.round.labelId.value < l.id.value)
    {
      var i :| 0 <= i < |c.log| && c.log[i] == e;
      assert Governing(c.log[i]) && LatestEvent(c.log).Some?;
      T.FreshIsNewest(c.log, l, x, i);
    }
    AppendSpends(w, c.log, x);
    assert x in c'.log && T.ByCommand(x);
    assert l in FreshCommands(w, c.log) && l !in FreshCommands(w, c'.log);
  }

  lemma RetrySpends(w: World, c: CardState, c': CardState, now: int, prNumber: int, head: string, baseline: int, comment: Comment)
    requires RetryExit(w, c, c', now, prNumber, head, baseline, comment)
    ensures w.retries - ConsumedRetries(c'.log) < w.retries - ConsumedRetries(c.log)
    ensures FreshCommands(w, c'.log) <= FreshCommands(w, c.log)
  {
    hide OpenContext, LatestEvent, FreshCommands;
    var x := c'.log[|c.log|];
    T.NextAppends(c.log, c'.log, T.ByRetry(now, w.ref, prNumber, head, baseline, comment));
    AppendSpends(w, c.log, x);
    assert x in c'.log && comment.id in ConsumedRetries(c'.log);
    assert comment.id in w.retries - ConsumedRetries(c.log);
  }

  lemma StrictSubset<A>(a: set<A>, b: set<A>)
    requires a <= b
    ensures |a| <= |b| && (a < b ==> |a| < |b|)
  {
    SubsetCardinality(a, b);
    if a < b {
      var x :| x in b && x !in a;
      SubsetCardinality(a, b - {x});
    }
  }

  /** No store of commands grows, and a consuming exit takes one from its own. */
  lemma StoresShrink(w: World, c: CardState, c': CardState, exit: Exit)
    requires Next(w, c, c', exit) && T.LogInv(c.log)
    ensures FreshCommands(w, c'.log) <= FreshCommands(w, c.log)
    ensures w.retries - ConsumedRetries(c'.log) <= w.retries - ConsumedRetries(c.log)
    ensures c.signals <= c'.signals
    ensures c'.resumed == c.resumed || (c'.resumed == w.response && c.resumed != w.response && w.response.Some?)
    ensures exit.LabelRound? ==> FreshCommands(w, c'.log) < FreshCommands(w, c.log)
    ensures exit.RetryRound? ==> w.retries - ConsumedRetries(c'.log) < w.retries - ConsumedRetries(c.log)
    ensures exit.Supersede? ==> w.signals - c'.signals < w.signals - c.signals
    ensures exit.Resume? ==> c'.resumed == w.response && c.resumed != w.response && w.response.Some?
  {
    hide T.Next, T.Accepted, T.LogInv, Verdict, OpenContext, Evaluate, FreshCommands, ConsumedRetries, LabelExit, RetryExit;
    LogSpends(w, c, c', exit);
    match exit
    case LabelRound(now, prs) =>
      LabelSpends(w, c, c', now, prs);
      LabelKeeps(w, c, c', now, prs);
    case RetryRound(now, prNumber, head, baseline, comment) =>
      RetrySpends(w, c, c', now, prNumber, head, baseline, comment);
      RetryKeeps(w, c, c', now, prNumber, head, baseline, comment);
    case Supersede(signal) => assert signal in w.signals - c.signals;
    case _ =>
  }

  lemma LabelKeeps(w: World, c: CardState, c': CardState, now: int, prs: seq<PullRequest>)
    requires LabelExit(w, c, c', now, prs)
    ensures c'.signals == c.signals && c'.resumed == c.resumed
  {}

  lemma RetryKeeps(w: World, c: CardState, c': CardState, now: int, prNumber: int, head: string, baseline: int, comment: Comment)
    requires RetryExit(w, c, c', now, prNumber, head, baseline, comment)
    ensures c'.signals == c.signals && c'.resumed == c.resumed
  {}

  /** One-shot commands only get fewer, and each command that opens something is one less. */
  lemma CommandsRunOut(w: World, c: CardState, c': CardState, exit: Exit)
    requires Next(w, c, c', exit) && T.LogInv(c.log)
    ensures Unconsumed(w, c') <= Unconsumed(w, c)
    ensures Consumes(exit) ==> Unconsumed(w, c') < Unconsumed(w, c)
  {
    hide Next, T.LogInv, FreshCommands, ConsumedRetries;
    StoresShrink(w, c, c', exit);
    StrictSubset(FreshCommands(w, c'.log), FreshCommands(w, c.log));
    StrictSubset(w.retries - ConsumedRetries(c'.log), w.retries - ConsumedRetries(c.log));
    StrictSubset(w.signals - c'.signals, w.signals - c.signals);
  }

  lemma LogSpends(w: World, c: CardState, c': CardState, exit: Exit)
    requires Next(w, c, c', exit)
    ensures FreshCommands(w, c'.log) <= FreshCommands(w, c.log)
    ensures w.retries - ConsumedRetries(c'.log) <= w.retries - ConsumedRetries(c.log)
  {
    hide Next, FreshCommands, ConsumedRetries, LogStep;
    LogMoves(w, c, c', exit);
    if LogStep(w, c, exit).Some? {
      T.NextAppends(c.log, c'.log, LogStep(w, c, exit).value);
      AppendSpends(w, c.log, c'.log[|c.log|]);
    }
  }

  /** The measure: unconsumed commands, then pending parents, then the status rank. */
  ghost predicate Lower(w: World, c': CardState, c: CardState) {
    || Unconsumed(w, c') < Unconsumed(w, c)
    || (Unconsumed(w, c') == Unconsumed(w, c) && c'.pending < c.pending)
    || (Unconsumed(w, c') == Unconsumed(w, c) && c'.pending == c.pending && Rank(w, c') < Rank(w, c))
  }

  /** Every change of status by a pass lowers the lexicographic measure. */
  lemma MeasureDrops(w: World, c: CardState, c': CardState, exit: Exit)
    requires Next(w, c, c', exit) && !exit.Elsewhere? && T.LogInv(c.log)
    requires c'.status != c.status
    ensures Lower(w, c', c)
    ensures Consumes(exit) ==> Unconsumed(w, c') < Unconsumed(w, c)
  {
    hide Unconsumed, Rank, T.Next, T.LogInv, T.Accepted, OpenContext, Verdict, Evaluate;
    CommandsRunOut(w, c, c', exit);
    RankFalls(w, c, c', exit);
  }

  function Consumptions(exits: seq<Exit>, n: nat): (count: nat)
    requires n <= |exits|
  {
    if n == 0 then 0 else Consumptions(exits, n - 1) + if Consumes(exits[n - 1]) then 1 else 0
  }

  /** Whatever workers, dispatchers and people do to the card in between, passes open
      no more rounds than there were one-shot commands at the start. */
  lemma {:induction false} CommandsBoundRounds(w: World, cards: seq<CardState>, exits: seq<Exit>, n: nat)
    requires IsRun(w, cards, exits) && n <= |exits| && T.LogInv(cards[0].log)
    requires forall i :: 0 <= i < n ==> StampedLate(w, cards[i], exits[i])
    ensures Consumptions(exits, n) + Unconsumed(w, cards[n]) <= Unconsumed(w, cards[0])
    ensures T.LogInv(cards[n].log)
  {
    hide Next, Unconsumed, T.LogInv, StampedLate, Consumes;
    if n > 0 {
      CommandsBoundRounds(w, cards, exits, n - 1);
      CommandsRunOut(w, cards[n - 1], cards[n], exits[n - 1]);
      LogInvKept(w, cards[n - 1], cards[n], exits[n - 1]);
    }
  }

  // ---------------------------------------------------------- the classic pass

  /** The card state is what the board shows of the card. */
  ghost predicate Shows(w: World, c: CardState, tasks: map<TaskId, KanbanBoard.Task>, links: seq<Link>, log: seq<EventLog.Event>, id: TaskId) {
    && id in tasks && tasks[id].row.status == c.status
    && c.status in Projection.PRESERVED + {"review", "done"}
    && c.priorDone == S.HasPriorDone(log, id) && c.superseded == S.SupersededPrs(log, id, w.ref)
    && (c.pending == 0 <==> KanbanBoard.ParentsTerminal(tasks, links, id))
  }

  /** A classic pass that changes the card takes the restore or the projecting exit. */
  lemma ClassicPassIsAnExit(w: World, c: CardState, tasks: map<TaskId, KanbanBoard.Task>, links: seq<Link>, log: seq<EventLog.Event>,
                            id: TaskId, backed: string -> bool, context: Option<string>)
    requires Shows(w, c, tasks, links, log, id)
    requires !S.Settled(tasks, links, log, id, w.ref, Verified(w), backed, context)
    ensures exists c': CardState :: c'.status == S.NextStatus(tasks, links, log, id, w.ref, Verified(w))
                         && (Next(w, c, c', Restore) || Next(w, c, c', Project))
  {
    hide S.HasPriorDone, S.SupersededPrs, S.VerdictOf, C.Verify;
    if c.pending > 0 {
      assert Next(w, c, c.(status := "todo"), Restore);
    } else {
      var d := Verdict(w, c);
      var c' := c.(status := Name(d.desired.value),
                   priorDone := c.priorDone || (d.desired == Some(C.Done) && d.reason in {C.AllLinkedPrsMerged, C.AuthoritativeDonePreserved}));
      assert Next(w, c, c', Project);
    }
  }
}
