/** The evidence on which a round's delivery is accepted: a trusted completion
    marker on the PR, the run of that round, and the live head. */
module DeliveryGate {
  import opened Prelude
  import opened Provenance
  import opened ReworkRounds

  /** The `request_comment=` field of a marker: the text "none", an id, or else. */
  datatype RequestField = NoneText | RequestId(id: int) | OtherText

  /** The `rework_round=` field of a marker. */
  datatype RoundField = NoRoundField | RoundNumber(n: int) | NotANumber

  /** A comment that holds the completion marker, with its parsed fields. */
  datatype Handoff = Handoff(at: Option<int>, trusted: bool, task: TaskId, request: RequestField,
                             head: string, validation: string, number: RoundField)

  /** The newest run of this round: its outcome once ended, the heads it attests. */
  datatype RoundRun = RoundRun(ended: bool, outcome: string, heads: set<string>, validation: string)

  /** What the edge reads and does when it writes the marker itself. */
  datatype EdgeReads = EdgeReads(openPrs: Option<nat>, liveOpen: bool, liveHead: string, before: seq<Handoff>,
                                 issueReady: bool, request: Option<Comment>, actorTrusted: bool, posted: bool, after: seq<Handoff>)

  datatype Refusal =
    | InvalidEvent | SupersededByNewRework | RunMissing | RunFailed | PrAmbiguous | PrNotOpen | HeadInvalid
    | ReviewRequested | IssueNotAgentReady | RequestMissing | RequestUntrusted | RequestInvalid
    | ValidationMissing | RunHeadMissing | RunHeadMismatch | HeadUnchanged | ActorUntrusted | PostFailed | Unobserved
    | HandoffMissing | NotCreated

  function ExpectedField(request: Option<int>): RequestField {
    if request.None? then NoneText else RequestId(request.value)
  }

  predicate IsLowerSha(s: string) {
    IsFullSha(s) && Folded(s) == s
  }

  /** A trusted marker, no older than the round, for this task, round and head. */
  predicate Completes(h: Handoff, head: string, task: TaskId, e: Entry)
    requires Governing(e)
  {
    && h.trusted && h.at.Some? && h.at.value >= e.at
    && h.task == task && IsLowerSha(Folded(h.head))
    && h.validation == "passed" && Folded(h.head) == Folded(head)
    && (h.number.NoRoundField? || h.number == RoundNumber(e.round.number))
    && h.request == ExpectedField(e.round.request)
  }

  predicate NoneAfter(comments: seq<Handoff>, k: nat, head: string, task: TaskId, e: Entry)
    requires Governing(e) && k < |comments|
  {
    forall j :: k < j < |comments| ==> !Completes(comments[j], head, task, e)
  }

  /** `_completion_marker`: comments are looked through from the newest. */
  function CompletionMarker(comments: seq<Handoff>, head: string, task: TaskId, e: Entry): (marker: Option<Handoff>)
    requires Governing(e)
    ensures marker.None? <==> forall h :: h in comments ==> !Completes(h, head, task, e)
    ensures marker.Some? ==> marker.value in comments && Completes(marker.value, head, task, e)
    ensures marker.Some? ==> exists k :: 0 <= k < |comments| && comments[k] == marker.value && NoneAfter(comments, k, head, task, e)
  {
    if comments == [] then None
    else
      var n := |comments| - 1;
      if Completes(comments[n], head, task, e) then Some(comments[n])
      else
        assert comments == comments[..n] + [comments[n]];
        var rest := CompletionMarker(comments[..n], head, task, e);
        assert forall k :: 0 <= k < n && NoneAfter(comments[..n], k, head, task, e) ==> NoneAfter(comments, k, head, task, e);
        rest
  }

  /** The marker head, or why there is none, and whether a comment was posted. */
  datatype EdgeAttempt = EdgeAttempt(marker: Result<string, Refusal>, wrote: bool)

  function Refused(why: Refusal): EdgeAttempt {
    EdgeAttempt(Err(why), false)
  }

  /** `_edge_owned_completion_marker`: everything in the marker is resolved from
      the round or from a fresh read, and the comment is read back. */
  function EdgeMarker(seen: EdgeReads, task: TaskId, e: Entry, run: RoundRun): (attempt: EdgeAttempt)
    requires Governing(e)
    ensures attempt.marker.Ok? ==>
              && seen.liveOpen && attempt.marker.value == Folded(seen.liveHead)
              && exists h :: h in seen.before + seen.after && Completes(h, seen.liveHead, task, e)
  {
    if seen.openPrs.Some? && seen.openPrs.value != 1 then Refused(PrAmbiguous)
    else if !seen.liveOpen then Refused(PrNotOpen)
    else if !IsFullSha(Folded(seen.liveHead)) then Refused(HeadInvalid)
    else
      var marker := CompletionMarker(seen.before, seen.liveHead, task, e);
      if marker.Some? then
        assert marker.value in seen.before + seen.after;
        EdgeAttempt(Ok(Folded(marker.value.head)), false)
      else if run.outcome == "review_requested" then Refused(ReviewRequested)
      else if !seen.issueReady then Refused(IssueNotAgentReady)
      else if e.round.request.Some? && seen.request.None? then Refused(RequestMissing)
      else if e.round.request.Some? && !seen.request.value.trusted then Refused(RequestUntrusted)
      else if e.round.request.Some? && e.round.retry.Some? && !seen.request.value.exact then Refused(RequestInvalid)
      else if run.validation != "passed" then Refused(ValidationMissing)
      else if run.heads == {} then Refused(RunHeadMissing)
      else if Folded(seen.liveHead) !in run.heads then Refused(RunHeadMismatch)
      else if Folded(e.round.head) == Folded(seen.liveHead) && e.round.head != "" && e.round.retry.None? then Refused(HeadUnchanged)
      else if !seen.actorTrusted then Refused(ActorUntrusted)
      else if !seen.posted then EdgeAttempt(Err(PostFailed), true)
      else
        var observed := CompletionMarker(seen.after, seen.liveHead, task, e);
        if observed.None? then EdgeAttempt(Err(Unobserved), true)
        else
          assert observed.value in seen.before + seen.after;
          EdgeAttempt(Ok(Folded(observed.value.head)), true)
  }

  /** `_rework_delivery_evidence`: the accepted head, or why there is none. */
  function Evidence(ref: GithubTaskRef, task: TaskId, prNumber: int, prHead: string, e: Entry, commands: seq<LabelEvent>,
                    run: Option<RoundRun>, comments: seq<Handoff>, allowEdge: bool, seen: EdgeReads): (r: Result<string, Refusal>)
    requires Governing(e)
  {
    if !ValidRound(e.round, Some(ref), Some(prNumber)) then Err(InvalidEvent)
    else if NewerCommand(commands, e) then Err(SupersededByNewRework)
    else if run.None? || !run.value.ended then Err(RunMissing)
    else if run.value.outcome !in {"completed", "blocked", "review_requested"} then Err(RunFailed)
    else
      var found := CompletionMarker(comments, prHead, task, e);
      var marker := if found.Some? then Ok(Folded(found.value.head))
                    else if allowEdge then EdgeMarker(seen, task, e, run.value).marker
                    else Err(NotCreated);
      if marker.Err? then Err(if marker.error in {ValidationMissing, RunHeadMissing} then HandoffMissing else marker.error)
      else if run.value.heads != {} && marker.value !in run.value.heads then Err(RunHeadMismatch)
      else if Folded(e.round.head) == marker.value && !(e.round.retry.Some? && run.value.heads != {}) then Err(HeadUnchanged)
      else marker
  }

  /** `_label_is_newer_than_event`. */
  predicate NewerCommand(commands: seq<LabelEvent>, e: Entry)
    requires Governing(e)
  {
    var latest := LatestLabel(commands);
    latest.Some? && NewerThanBaseline(latest.value, e.at, e.round.labelAt, e.round.labelId)
  }

  /** The PR heads that GitHub showed while the evidence was gathered. */
  function SeenHeads(prHead: string, seen: EdgeReads): (heads: set<string>) {
    {Folded(prHead), Folded(seen.liveHead)}
  }

  /** An accepted delivery carries a head that GitHub showed for the PR, with a
      trusted marker of this task and round behind it; the run of the round ended
      properly and does not contradict it; and the head moved on from the round's
      first, unless a maintainer asked again and the run attests that very head. */
  lemma AcceptedDeliveryIsSound(ref: GithubTaskRef, task: TaskId, prNumber: int, prHead: string, e: Entry, commands: seq<LabelEvent>,
                                run: Option<RoundRun>, comments: seq<Handoff>, allowEdge: bool, seen: EdgeReads)
    requires Governing(e)
    requires Evidence(ref, task, prNumber, prHead, e, commands, run, comments, allowEdge, seen).Ok?
    ensures var head := Evidence(ref, task, prNumber, prHead, e, commands, run, comments, allowEdge, seen).value;
            && head in SeenHeads(prHead, seen)
            && (exists h :: h in comments + seen.before + seen.after && Completes(h, head, task, e))
            && run.Some? && run.value.ended && run.value.outcome in {"completed", "blocked", "review_requested"}
            && (run.value.heads == {} || head in run.value.heads)
            && (head == Folded(e.round.head) ==> e.round.retry.Some? && head in run.value.heads)
            && !NewerCommand(commands, e) && e.round.pr == prNumber
  {
    var found := CompletionMarker(comments, prHead, task, e);
    FoldTwice(prHead);
    FoldTwice(seen.liveHead);
    if found.Some? {
      assert found.value in comments + seen.before + seen.after;
      assert Completes(found.value, Folded(prHead), task, e);
    } else {
      var h :| h in seen.before + seen.after && Completes(h, seen.liveHead, task, e);
      assert h in comments + seen.before + seen.after;
      assert Completes(h, Folded(seen.liveHead), task, e);
    }
  }

  lemma {:induction false} FoldTwice(s: string)
    ensures Folded(Folded(s)) == Folded(s)
  {
    if s != [] {
      FoldTwice(s[1..]);
      assert Folded(s)[1..] == Folded(s[1..]);
    }
  }

  /** With a marker already on the PR, acceptance needs no write by the edge: it
      depends on the run and the round alone. */
  lemma PresentMarkerDecides(ref: GithubTaskRef, task: TaskId, prNumber: int, prHead: string, e: Entry, commands: seq<LabelEvent>,
                             run: Option<RoundRun>, comments: seq<Handoff>, allowEdge: bool, seen: EdgeReads)
    requires Governing(e) && exists h :: h in comments && Completes(h, prHead, task, e)
    ensures Evidence(ref, task, prNumber, prHead, e, commands, run, comments, allowEdge, seen).Ok?
            <==> && ValidRound(e.round, Some(ref), Some(prNumber)) && !NewerCommand(commands, e)
                 && run.Some? && run.value.ended && run.value.outcome in {"completed", "blocked", "review_requested"}
                 && (run.value.heads == {} || Folded(prHead) in run.value.heads)
                 && (Folded(prHead) == Folded(e.round.head) ==> e.round.retry.Some? && run.value.heads != {})
  {
    hide EdgeMarker, ValidRound, NewerCommand, CompletionMarker;
    var found := CompletionMarker(comments, prHead, task, e);
    assert found.Some? && Folded(found.value.head) == Folded(prHead);
    hide Completes, Folded;
  }

  /** Whatever it reads, the edge posts for no head but the live one of an open
      pull request that the run attests, validated and moved on from the round's
      first unless a maintainer asked again, and only where no marker stands. */
  lemma EdgeWritesOnlyAttested(seen: EdgeReads, task: TaskId, e: Entry, run: RoundRun)
    requires Governing(e) && EdgeMarker(seen, task, e, run).wrote
    ensures seen.liveOpen && Folded(seen.liveHead) in run.heads && run.validation == "passed" && run.outcome != "review_requested"
    ensures e.round.head != "" && Folded(e.round.head) == Folded(seen.liveHead) ==> e.round.retry.Some?
    ensures forall h :: h in seen.before ==> !Completes(h, seen.liveHead, task, e)
  {}

  /** Everything that must be in place before the edge writes a marker itself: one
      open pull request with a full live head, the Issue and the round's request
      still standing, a validated run that attests that head, which moved on unless
      a maintainer asked again, and a trusted account to write with. */
  ghost predicate MayPost(seen: EdgeReads, e: Entry, run: RoundRun)
    requires Governing(e)
  {
    && (seen.openPrs.None? || seen.openPrs.value == 1) && seen.liveOpen && IsFullSha(Folded(seen.liveHead))
    && run.outcome != "review_requested" && run.validation == "passed" && Folded(seen.liveHead) in run.heads
    && seen.issueReady && seen.actorTrusted
    && (e.round.request.Some? ==> seen.request.Some? && seen.request.value.trusted && (e.round.retry.Some? ==> seen.request.value.exact))
    && (e.round.head != "" && Folded(e.round.head) == Folded(seen.liveHead) ==> e.round.retry.Some?)
  }

  ghost predicate Marked(comments: seq<Handoff>, head: string, task: TaskId, e: Entry)
    requires Governing(e)
  {
    exists h :: h in comments && Completes(h, head, task, e)
  }

  /** The edge posts exactly when it may and no marker stands; and it hands on a
      marker exactly when one stands on the open request, or its own was posted
      and read back. */
  lemma EdgePostsWhen(seen: EdgeReads, task: TaskId, e: Entry, run: RoundRun)
    requires Governing(e)
    ensures EdgeMarker(seen, task, e, run).wrote <==> MayPost(seen, e, run) && !Marked(seen.before, seen.liveHead, task, e)
    ensures EdgeMarker(seen, task, e, run).marker.Ok? <==>
              && (seen.openPrs.None? || seen.openPrs.value == 1) && seen.liveOpen && IsFullSha(Folded(seen.liveHead))
              && ( Marked(seen.before, seen.liveHead, task, e)
                || (MayPost(seen, e, run) && seen.posted && Marked(seen.after, seen.liveHead, task, e)))
  {
    hide Completes, IsFullSha, Folded;
  }

  /** Without a marker on the request, a delivery is accepted exactly when the edge
      obtains one for a head that the run does not contradict and that moved on,
      unless a maintainer asked again and the run attests it. */
  lemma AbsentMarkerDecides(ref: GithubTaskRef, task: TaskId, prNumber: int, prHead: string, e: Entry, commands: seq<LabelEvent>,
                            run: Option<RoundRun>, comments: seq<Handoff>, allowEdge: bool, seen: EdgeReads)
    requires Governing(e) && !Marked(comments, prHead, task, e)
    ensures Evidence(ref, task, prNumber, prHead, e, commands, run, comments, allowEdge, seen).Ok?
            <==> && ValidRound(e.round, Some(ref), Some(prNumber)) && !NewerCommand(commands, e)
                 && run.Some? && run.value.ended && run.value.outcome in {"completed", "blocked", "review_requested"}
                 && allowEdge && EdgeMarker(seen, task, e, run.value).marker.Ok?
                 && (run.value.heads == {} || Folded(seen.liveHead) in run.value.heads)
                 && (Folded(seen.liveHead) == Folded(e.round.head) ==> e.round.retry.Some? && run.value.heads != {})
  {
    var found := CompletionMarker(comments, prHead, task, e);
    assert found.None?;
    hide CompletionMarker, EdgeMarker, ValidRound, NewerCommand, Completes, Folded;
  }

  /** Why a delivery is refused, in the order of the checks; a missing validation or
      head of the run only ever means that the handoff is missing. */
  lemma RefusedWhen(ref: GithubTaskRef, task: TaskId, prNumber: int, prHead: string, e: Entry, commands: seq<LabelEvent>,
                    run: Option<RoundRun>, comments: seq<Handoff>, allowEdge: bool, seen: EdgeReads)
    requires Governing(e)
    ensures var r := Evidence(ref, task, prNumber, prHead, e, commands, run, comments, allowEdge, seen);
            var valid := ValidRound(e.round, Some(ref), Some(prNumber));
            var current := valid && !NewerCommand(commands, e);
            var ended := current && run.Some? && run.value.ended;
            var finished := ended && run.value.outcome in {"completed", "blocked", "review_requested"};
            var asks := finished && !Marked(comments, prHead, task, e) && allowEdge;
            && (r == Err(InvalidEvent) <==> !valid)
            && (r == Err(SupersededByNewRework) <==> valid && !current)
            && (r == Err(RunMissing) <==> current && !ended)
            && (r == Err(RunFailed) <==> ended && !finished)
            && (r == Err(NotCreated) <==> finished && !Marked(comments, prHead, task, e) && !allowEdge)
            && (r == Err(HandoffMissing) <==> asks && EdgeMarker(seen, task, e, run.value).marker in {Err(ValidationMissing), Err(RunHeadMissing)})
            && (asks && EdgeMarker(seen, task, e, run.value).marker.Err? && r != Err(HandoffMissing) ==>
                  r == Err(EdgeMarker(seen, task, e, run.value).marker.error))
  {
    EdgeRefusesWhen(seen, task, e, if run.Some? then run.value else RoundRun(false, "", {}, ""));
    hide ValidRound, NewerCommand, Completes, Folded, EdgeMarker;
  }

  /** Why the edge writes no marker, once the pull request is fine and no marker
      stands: the run's silence, an open question to a reviewer, the Issue, the
      request, the head, the account, or the write itself. */
  lemma EdgeRefusesWhen(seen: EdgeReads, task: TaskId, e: Entry, run: RoundRun)
    requires Governing(e)
    ensures var m := EdgeMarker(seen, task, e, run).marker;
            var asked := (seen.openPrs.None? || seen.openPrs.value == 1) && seen.liveOpen && IsFullSha(Folded(seen.liveHead))
                         && !Marked(seen.before, seen.liveHead, task, e);
            var stands := asked && run.outcome != "review_requested" && seen.issueReady
                          && (e.round.request.Some? ==> seen.request.Some? && seen.request.value.trusted
                                                        && (e.round.retry.Some? ==> seen.request.value.exact));
            && m != Err(HandoffMissing) && m != Err(NotCreated) && m != Err(InvalidEvent) && m != Err(SupersededByNewRework)
            && m != Err(RunMissing) && m != Err(RunFailed)
            && (m == Err(PrAmbiguous) <==> seen.openPrs.Some? && seen.openPrs.value != 1)
            && (m == Err(ReviewRequested) <==> asked && run.outcome == "review_requested")
            && (m == Err(IssueNotAgentReady) <==> asked && run.outcome != "review_requested" && !seen.issueReady)
            && (m == Err(ValidationMissing) <==> stands && run.validation != "passed")
            && (m == Err(RunHeadMissing) <==> stands && run.validation == "passed" && run.heads == {})
            && (m == Err(RunHeadMismatch) <==> stands && run.validation == "passed" && run.heads != {} && Folded(seen.liveHead) !in run.heads)
            && (m == Err(PostFailed) <==> asked && MayPost(seen, e, run) && !seen.posted)
            && (m == Err(Unobserved) <==>
                  asked && MayPost(seen, e, run) && seen.posted && !Marked(seen.after, seen.liveHead, task, e))
  {
    hide Completes, IsFullSha, Folded;
  }

  /** What the edge writes is a marker its readers accept, for that round alone. */
  lemma WrittenMarkerCompletes(at: int, head: string, task: TaskId, e: Entry, asked: TaskId, other: Entry, shown: string)
    requires Governing(e) && Governing(other) && IsFullSha(Folded(head))
    ensures Completes(Handoff(Some(at), true, task, ExpectedField(e.round.request), head, "passed", RoundNumber(e.round.number)), shown, asked, other)
            <==> && at >= other.at && asked == task && Folded(shown) == Folded(head)
                 && e.round.number == other.round.number && e.round.request == other.round.request
  {
    FoldTwice(head);
  }

  /** An untrusted comment, an undated one or one that does not pass validation is
      no marker, whatever else it says. */
  lemma MarkerMustBeGood(h: Handoff, head: string, task: TaskId, e: Entry)
    requires Governing(e) && Completes(h, head, task, e)
    ensures h.trusted && h.at.Some? && h.at.value >= e.at && h.validation == "passed" && h.task == task
    ensures Folded(h.head) == Folded(head) && IsFullSha(Folded(head))
    ensures h.number == NoRoundField || h.number == RoundNumber(e.round.number)
    ensures h.request == if e.round.request.None? then NoneText else RequestId(e.round.request.value)
  {}

  /** The gate steps back exactly for a command that would open the next round. */
  lemma NewerCommandOpens(log: seq<Entry>, commands: seq<LabelEvent>)
    requires LatestEvent(log).Some?
    ensures NewerCommand(commands, log[LatestEvent(log).value])
            <==> LatestLabel(commands).Some? && FreshLabel(log, LatestLabel(commands).value)
  {}

  /** Once its marker was read back, the edge never posts again for that round and
      head, as long as the comment stands. */
  lemma EdgeWritesOnce(seen: EdgeReads, later: EdgeReads, task: TaskId, e: Entry, run: RoundRun, laterRun: RoundRun)
    requires Governing(e) && EdgeMarker(seen, task, e, run).marker.Ok?
    requires later.liveHead == seen.liveHead && forall h :: h in seen.before + seen.after ==> h in later.before
    ensures !EdgeMarker(later, task, e, laterRun).wrote
  {
    var h :| h in seen.before + seen.after && Completes(h, seen.liveHead, task, e);
    assert h in later.before;
  }
}
