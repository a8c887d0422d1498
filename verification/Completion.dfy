/** Whether the pull requests linked to an Issue complete its card. */
module Completion {
  import opened Prelude

  datatype PullState = Open | Closed

  datatype IssueState = IssueOpen | IssueClosed

  /** `merged` already means merged into the target branch of the request.
      `closing` is GitHub's closing-Issue set, when it was looked up, and
      `closingKeywords` the Issue numbers that closing keywords in the body name. */
  datatype PullRequest = PullRequest(
    number: int,
    state: PullState,
    merged: bool,
    baseBranch: string,
    headSha: string,
    headRef: string,
    closing: Option<set<int>>,
    closingKeywords: set<int>)

  datatype Reason =
    | NoLinkedPr
    | AllLinkedPrsMerged
    | AuthoritativeDonePreserved
    | SupersededPrMerged
    | LinkedPrOpen
    | LinkedPrClosedNotMerged
    | LinkedPrNotMerged
    | GithubQueryFailed

  datatype Desired = Review | Done

  datatype Decision = Decision(desired: Option<Desired>, reason: Reason, linked: set<int>, prs: seq<PullRequest>)

  predicate MergedIntoTarget(ref: GithubTaskRef, pr: PullRequest) {
    pr.merged && pr.state == Closed && pr.baseBranch == ref.targetBranch
  }

  /** `_is_effective_linked_pr`. */
  predicate Effective(ref: GithubTaskRef, pr: PullRequest) {
    || pr.closing.None?
    || ref.issueNumber in pr.closing.value
    || (pr.state == Closed && ref.issueNumber in pr.closingKeywords)
  }

  predicate ClosedUnmerged(ref: GithubTaskRef, pr: PullRequest) {
    pr.state == Closed && !MergedIntoTarget(ref, pr)
  }

  /** A newer request from the same branch was merged into the target. */
  predicate Replaces(ref: GithubTaskRef, newer: PullRequest, pr: PullRequest) {
    && MergedIntoTarget(ref, newer)
    && newer.number > pr.number
    && newer.headRef != ""
    && newer.headRef == pr.headRef
  }

  predicate Superseded(ref: GithubTaskRef, prs: seq<PullRequest>, pr: PullRequest) {
    && ClosedUnmerged(ref, pr)
    && pr.headRef != ""
    && exists newer :: newer in prs && Replaces(ref, newer, pr)
  }

  /** `_superseded_closed_pr_numbers`. */
  function SupersededNumbers(ref: GithubTaskRef, prs: seq<PullRequest>): (numbers: set<int>) {
    set pr | pr in prs && Superseded(ref, prs, pr) :: pr.number
  }

  function UnresolvedNumbers(ref: GithubTaskRef, prs: seq<PullRequest>): (numbers: set<int>) {
    set pr | pr in prs && ClosedUnmerged(ref, pr) :: pr.number
  }

  predicate NumberOrdered(prs: seq<PullRequest>) {
    forall i, j :: 0 <= i < j < |prs| ==> prs[i].number <= prs[j].number
  }

  /** A stable insertion, as `sorted(..., key=number)` orders the requests. */
  function Insert(prs: seq<PullRequest>, pr: PullRequest): (r: seq<PullRequest>)
    ensures multiset(r) == multiset(prs) + multiset{pr}
    ensures forall x :: x in r <==> x == pr || x in prs
  {
    if prs == [] then [pr]
    else if pr.number <= prs[0].number then [pr] + prs
    else
      assert prs == [prs[0]] + prs[1..];
      [prs[0]] + Insert(prs[1..], pr)
  }

  lemma {:induction false} InsertOrdered(prs: seq<PullRequest>, pr: PullRequest)
    requires NumberOrdered(prs)
    ensures NumberOrdered(Insert(prs, pr))
  {
    if prs != [] && pr.number > prs[0].number {
      InsertOrdered(prs[1..], pr);
      var rest := Insert(prs[1..], pr);
      forall x | x in rest ensures prs[0].number <= x.number {
        if x != pr {
          var k :| 0 <= k < |prs[1..]| && prs[1..][k] == x;
          assert prs[k + 1] == x;
        }
      }
    }
  }

  function SortByNumber(prs: seq<PullRequest>): (r: seq<PullRequest>)
    ensures multiset(r) == multiset(prs) && NumberOrdered(r)
    ensures forall x :: x in r <==> x in prs
  {
    if prs == [] then []
    else
      assert prs == [prs[0]] + prs[1..];
      var rest := SortByNumber(prs[1..]);
      InsertOrdered(rest, prs[0]);
      Insert(rest, prs[0])
  }

  function Where(prs: seq<PullRequest>, keep: PullRequest -> bool): (r: seq<PullRequest>)
    ensures forall pr :: pr in r <==> pr in prs && keep(pr)
  {
    if prs == [] then []
    else (if keep(prs[0]) then [prs[0]] else []) + Where(prs[1..], keep)
  }

  function EffectivePrs(ref: GithubTaskRef, prs: seq<PullRequest>, superseded: set<int>): (r: seq<PullRequest>)
    ensures forall pr :: pr in r <==> pr in prs && pr.number !in superseded && Effective(ref, pr)
  {
    Where(prs, (pr: PullRequest) => pr.number !in superseded && Effective(ref, pr))
  }

  /** `evaluate_completion`.  `superseded` is the durable evidence recorded by
      the trusted maintainer transition. */
  function Evaluate(ref: GithubTaskRef, given: seq<PullRequest>, linked: set<int>, issue: Option<IssueState>, superseded: set<int>): (d: Decision) {
    var prs := SortByNumber(given);
    var numbers := linked + set pr | pr in prs :: pr.number;
    if prs == [] then Decision(Some(Review), NoLinkedPr, numbers, prs) else
    var effective := EffectivePrs(ref, prs, superseded);
    if effective == [] then Decision(Some(Review), NoLinkedPr, numbers, effective)
    else
      var (desired, reason) := Judge(ref, effective, issue);
      Decision(Some(desired), reason, numbers, effective)
  }

  predicate AllMerged(ref: GithubTaskRef, prs: seq<PullRequest>) {
    forall pr :: pr in prs ==> MergedIntoTarget(ref, pr)
  }

  predicate SomeOpen(prs: seq<PullRequest>) {
    exists pr :: pr in prs && pr.state == Open
  }

  /** The verdict on the effective requests, which are not empty. */
  function Judge(ref: GithubTaskRef, effective: seq<PullRequest>, issue: Option<IssueState>): (r: (Desired, Reason)) {
    if AllMerged(ref, effective) then (Done, AllLinkedPrsMerged)
    else if issue == Some(IssueClosed) && !SomeOpen(effective) && Lineage(ref, effective) then (Done, SupersededPrMerged)
    else if SomeOpen(effective) then (Review, LinkedPrOpen)
    else if UnresolvedNumbers(ref, effective) != {} then (Review, LinkedPrClosedNotMerged)
    else (Review, LinkedPrNotMerged)
  }

  /** The unresolved requests are exactly the superseded ones, and what is left
      without them is not empty and all merged. */
  predicate Lineage(ref: GithubTaskRef, effective: seq<PullRequest>) {
    var stale := SupersededNumbers(ref, effective);
    && UnresolvedNumbers(ref, effective) != {}
    && stale == UnresolvedNumbers(ref, effective)
    && LeftoverMerged(ref, effective, stale)
  }

  /** What remains without the superseded requests is not empty and all merged. */
  predicate LeftoverMerged(ref: GithubTaskRef, effective: seq<PullRequest>, stale: set<int>) {
    && (exists pr :: pr in effective && pr.number !in stale)
    && (forall pr :: pr in effective && pr.number !in stale ==> MergedIntoTarget(ref, pr))
  }

  predicate DistinctNumbers(prs: seq<PullRequest>) {
    forall i, j :: 0 <= i < j < |prs| ==> prs[i].number != prs[j].number
  }

  /** `verify_completion`: the Issue is read only for a fully proven same-head
      supersession.  `prs` is absent when a pull-request lookup failed, `issue`
      when reading the Issue would fail.  The second result says whether the
      Issue was read. */
  function Verify(ref: GithubTaskRef, prs: Option<seq<PullRequest>>, linked: set<int>, issue: Option<IssueState>): (r: (Decision, bool)) {
    if prs.None? then (Decision(None, GithubQueryFailed, {}, []), false) else
    var provisional := Evaluate(ref, prs.value, linked, None, {});
    if provisional.reason != LinkedPrClosedNotMerged then (provisional, false)
    else
      var unresolved := UnresolvedNumbers(ref, provisional.prs);
      if unresolved == {} || SupersededNumbers(ref, provisional.prs) != unresolved then (provisional, false)
      else if issue.None? then (Decision(None, GithubQueryFailed, {}, []), true)
      else (Evaluate(ref, prs.value, linked, issue, {}), true)
  }

  // ------------------------------------------------------------------ order

  lemma MultisetMembers(a: seq<PullRequest>, b: seq<PullRequest>)
    requires multiset(a) == multiset(b)
    ensures |a| == |b| && forall x :: x in a <==> x in b
  {
    assert |a| == |multiset(a)| && |b| == |multiset(b)|;
    assert forall x :: x in a <==> x in multiset(a);
    assert forall x :: x in b <==> x in multiset(b);
  }

  lemma SameHead(a: seq<PullRequest>, b: seq<PullRequest>)
    requires multiset(a) == multiset(b) && NumberOrdered(a) && NumberOrdered(b) && DistinctNumbers(a) && a != []
    ensures b != [] && a[0] == b[0]
  {
    MultisetMembers(a, b);
    assert b[0] in b && a[0] in a;
    var i :| 0 <= i < |a| && a[i] == b[0];
    var j :| 0 <= j < |b| && b[j] == a[0];
    assert a[0].number <= a[i].number && b[0].number <= b[j].number;
    assert i == 0;
  }

  lemma {:induction false} OrderedIsUnique(a: seq<PullRequest>, b: seq<PullRequest>)
    requires multiset(a) == multiset(b) && NumberOrdered(a) && NumberOrdered(b) && DistinctNumbers(a)
    ensures a == b
  {
    MultisetMembers(a, b);
    if a != [] {
      SameHead(a, b);
      TailMultiset(a);
      TailMultiset(b);
      OrderedIsUnique(a[1..], b[1..]);
    }
  }

  lemma TailMultiset(s: seq<PullRequest>)
    requires s != []
    ensures multiset(s[1..]) == multiset(s) - multiset{s[0]}
    ensures s == [s[0]] + s[1..]
  {
    assert s == [s[0]] + s[1..];
  }

  lemma {:induction false} DistinctSurvivesReorder(a: seq<PullRequest>, b: seq<PullRequest>)
    requires multiset(a) == multiset(b) && DistinctNumbers(a)
    ensures DistinctNumbers(b)
  {
    forall i, j | 0 <= i < j < |b| ensures b[i].number != b[j].number {
      if b[i].number == b[j].number {
        assert b[i] in multiset(b) && b[j] in multiset(b);
        assert b[i] in a && b[j] in a;
        assert b[i] == b[j];
        assert b == b[..i] + [b[i]] + b[i + 1..j] + [b[j]] + b[j + 1..];
        assert multiset(b)[b[i]] >= 2;
        DistinctOccursOnce(a, b[i]);
      }
    }
  }

  lemma {:induction false} DistinctOccursOnce(a: seq<PullRequest>, pr: PullRequest)
    requires DistinctNumbers(a)
    ensures multiset(a)[pr] <= 1
  {
    if a != [] {
      assert a == [a[0]] + a[1..];
      DistinctOccursOnce(a[1..], pr);
      if a[0] == pr {
        assert forall j :: 0 <= j < |a[1..]| ==> a[1..][j] != pr;
        assert pr !in a[1..];
      }
    }
  }

  /** The decision does not depend on the order the requests were found in. */
  lemma OrderDoesNotMatter(ref: GithubTaskRef, a: seq<PullRequest>, b: seq<PullRequest>, linked: set<int>, issue: Option<IssueState>, superseded: set<int>)
    requires multiset(a) == multiset(b) && DistinctNumbers(a)
    ensures Evaluate(ref, a, linked, issue, superseded) == Evaluate(ref, b, linked, issue, superseded)
  {
    DistinctSurvivesReorder(a, SortByNumber(a));
    OrderedIsUnique(SortByNumber(a), SortByNumber(b));
  }

  // -------------------------------------------------------- what done means

  /** The request bears on the Issue: GitHub closes the Issue with it, or does not
      say so, or it is closed and its body names the Issue. */
  ghost predicate Counts(ref: GithubTaskRef, prs: seq<PullRequest>, superseded: set<int>, pr: PullRequest) {
    && pr in prs && pr.number !in superseded
    && (pr.closing.Some? && ref.issueNumber !in pr.closing.value ==> pr.state == Closed && ref.issueNumber in pr.closingKeywords)
  }

  /** Merged, and into the branch that the card asks for. */
  ghost predicate Landed(ref: GithubTaskRef, pr: PullRequest) {
    pr.merged && pr.state == Closed && pr.baseBranch == ref.targetBranch
  }

  /** A request of larger number from the same named branch landed. */
  ghost predicate Outdone(ref: GithubTaskRef, prs: seq<PullRequest>, superseded: set<int>, pr: PullRequest) {
    exists newer :: Counts(ref, prs, superseded, newer) && Landed(ref, newer) && newer.number > pr.number
                    && newer.headRef == pr.headRef != ""
  }

  /** Every effective request is merged, or the Issue is closed, none is open,
      and each unmerged one was replaced by a newer merge from its own branch. */
  ghost predicate Complete(ref: GithubTaskRef, prs: seq<PullRequest>, issue: Option<IssueState>, superseded: set<int>) {
    && (exists pr :: Counts(ref, prs, superseded, pr))
    && ((forall pr :: Counts(ref, prs, superseded, pr) ==> Landed(ref, pr))
        || (&& issue == Some(IssueClosed)
            && (forall pr :: Counts(ref, prs, superseded, pr) ==> pr.state == Closed)
            && (forall pr :: Counts(ref, prs, superseded, pr) && !Landed(ref, pr) ==> Outdone(ref, prs, superseded, pr))))
  }

  ghost predicate DistinctMembers(prs: seq<PullRequest>) {
    forall a, b :: a in prs && b in prs && a.number == b.number ==> a == b
  }

  lemma EffectiveMembers(ref: GithubTaskRef, prs: seq<PullRequest>, superseded: set<int>)
    requires DistinctNumbers(prs)
    ensures var e := EffectivePrs(ref, SortByNumber(prs), superseded);
            && (forall pr :: pr in e <==> Counts(ref, prs, superseded, pr))
            && DistinctMembers(e)
  {
    forall a, b | a in prs && b in prs && a.number == b.number ensures a == b {
      var i :| 0 <= i < |prs| && prs[i] == a;
      var j :| 0 <= j < |prs| && prs[j] == b;
      assert i == j;
    }
  }

  /** Under distinct numbers, comparing the number sets compares the requests. */
  lemma StaleMatchesUnresolved(ref: GithubTaskRef, e: seq<PullRequest>)
    requires DistinctMembers(e)
    ensures SupersededNumbers(ref, e) == UnresolvedNumbers(ref, e)
            <==> forall pr :: pr in e && ClosedUnmerged(ref, pr) ==> Superseded(ref, e, pr)
  {
    var stale, unresolved := SupersededNumbers(ref, e), UnresolvedNumbers(ref, e);
    assert stale <= unresolved;
    if stale == unresolved {
      forall pr | pr in e && ClosedUnmerged(ref, pr) ensures Superseded(ref, e, pr) {
        assert pr.number in stale;
      }
    }
  }

  lemma LeftoverIsMerged(ref: GithubTaskRef, e: seq<PullRequest>)
    requires DistinctMembers(e) && UnresolvedNumbers(ref, e) != {}
    requires forall pr :: pr in e ==> pr.state == Closed
    requires forall pr :: pr in e && ClosedUnmerged(ref, pr) ==> Superseded(ref, e, pr)
    ensures LeftoverMerged(ref, e, SupersededNumbers(ref, e))
  {
    var stale := SupersededNumbers(ref, e);
    var n :| n in UnresolvedNumbers(ref, e);
    var u :| u in e && ClosedUnmerged(ref, u) && u.number == n;
    var newer :| newer in e && Replaces(ref, newer, u);
    assert newer.number !in stale;
    forall pr | pr in e && pr.number !in stale ensures MergedIntoTarget(ref, pr) {
      assert !Superseded(ref, e, pr);
    }
  }

  /** The supersession test passes exactly when every unmerged request was replaced. */
  lemma LineageIsReplacement(ref: GithubTaskRef, e: seq<PullRequest>)
    requires DistinctMembers(e) && !AllMerged(ref, e) && !SomeOpen(e)
    ensures UnresolvedNumbers(ref, e) != {}
    ensures Lineage(ref, e) <==> SupersededNumbers(ref, e) == UnresolvedNumbers(ref, e)
    ensures Lineage(ref, e) <==> forall pr :: pr in e && !MergedIntoTarget(ref, pr) ==> Superseded(ref, e, pr)
  {
    var u :| u in e && !MergedIntoTarget(ref, u);
    assert forall pr :: pr in e ==> pr.state == Closed;
    assert u.number in UnresolvedNumbers(ref, e);
    StaleMatchesUnresolved(ref, e);
    if forall pr :: pr in e && ClosedUnmerged(ref, pr) ==> Superseded(ref, e, pr) {
      LeftoverIsMerged(ref, e);
    }
  }

  lemma JudgeDoneIffComplete(ref: GithubTaskRef, prs: seq<PullRequest>, e: seq<PullRequest>, issue: Option<IssueState>, superseded: set<int>)
    requires DistinctMembers(e) && forall pr :: pr in e <==> Counts(ref, prs, superseded, pr)
    requires e != []
    ensures Judge(ref, e, issue).0 == Done <==> Complete(ref, prs, issue, superseded)
  {
    assert Counts(ref, prs, superseded, e[0]);
    if !AllMerged(ref, e) && !SomeOpen(e) {
      LineageIsReplacement(ref, e);
    }
  }

  /** The card is done exactly when its requests are complete. */
  lemma DoneIffComplete(ref: GithubTaskRef, prs: seq<PullRequest>, linked: set<int>, issue: Option<IssueState>, superseded: set<int>)
    requires DistinctNumbers(prs)
    ensures Evaluate(ref, prs, linked, issue, superseded).desired == Some(Done) <==> Complete(ref, prs, issue, superseded)
  {
    EffectiveMembers(ref, prs, superseded);
    var e := EffectivePrs(ref, SortByNumber(prs), superseded);
    if e != [] {
      JudgeDoneIffComplete(ref, prs, e, issue, superseded);
    } else {
      assert forall pr :: !Counts(ref, prs, superseded, pr);
    }
  }

  /** Why a card stands where it stands, each reason exactly when.  The reason
      `LinkedPrNotMerged` is never given. */
  lemma ReasonWhen(ref: GithubTaskRef, prs: seq<PullRequest>, linked: set<int>, issue: Option<IssueState>, superseded: set<int>)
    requires DistinctNumbers(prs)
    ensures var d := Evaluate(ref, prs, linked, issue, superseded);
            var some := exists pr :: Counts(ref, prs, superseded, pr);
            var all := forall pr :: Counts(ref, prs, superseded, pr) ==> Landed(ref, pr);
            var open := exists pr :: Counts(ref, prs, superseded, pr) && pr.state == Open;
            && d.desired.Some?
            && (d.reason == NoLinkedPr <==> !some)
            && (d.reason == AllLinkedPrsMerged <==> some && all)
            && (d.reason == SupersededPrMerged <==> Complete(ref, prs, issue, superseded) && !all)
            && (d.reason == LinkedPrOpen <==> open)
            && (d.reason == LinkedPrClosedNotMerged <==> some && !open && !Complete(ref, prs, issue, superseded))
  {
    EffectiveMembers(ref, prs, superseded);
    var e := EffectivePrs(ref, SortByNumber(prs), superseded);
    if e != [] {
      assert Counts(ref, prs, superseded, e[0]);
      JudgeReason(ref, prs, e, issue, superseded);
    } else {
      assert forall pr :: !Counts(ref, prs, superseded, pr);
    }
  }

  lemma JudgeReason(ref: GithubTaskRef, prs: seq<PullRequest>, e: seq<PullRequest>, issue: Option<IssueState>, superseded: set<int>)
    requires DistinctMembers(e) && forall pr :: pr in e <==> Counts(ref, prs, superseded, pr)
    requires e != []
    ensures var reason := Judge(ref, e, issue).1;
            var all := forall pr :: Counts(ref, prs, superseded, pr) ==> Landed(ref, pr);
            var open := exists pr :: Counts(ref, prs, superseded, pr) && pr.state == Open;
            && (reason == AllLinkedPrsMerged <==> all)
            && (reason == SupersededPrMerged <==> Complete(ref, prs, issue, superseded) && !all)
            && (reason == LinkedPrOpen <==> open)
            && (reason == LinkedPrClosedNotMerged <==> !open && !Complete(ref, prs, issue, superseded))
            && reason != NoLinkedPr
  {
    JudgeDoneIffComplete(ref, prs, e, issue, superseded);
    assert AllMerged(ref, e) <==> forall pr :: Counts(ref, prs, superseded, pr) ==> Landed(ref, pr);
    assert SomeOpen(e) <==> exists pr :: Counts(ref, prs, superseded, pr) && pr.state == Open;
    if !AllMerged(ref, e) && !SomeOpen(e) {
      LineageIsReplacement(ref, e);
    }
  }

  ghost predicate NoneCount(ref: GithubTaskRef, prs: seq<PullRequest>) {
    forall pr :: !Counts(ref, prs, {}, pr)
  }

  /** Reading the Issue would turn the card from unfinished to done. */
  ghost predicate IssueDecides(ref: GithubTaskRef, prs: seq<PullRequest>) {
    !Complete(ref, prs, Some(IssueOpen), {}) && Complete(ref, prs, Some(IssueClosed), {})
  }

  /** What a verified verdict means: none when a lookup that matters failed, done
      exactly for a complete card, and no linked request exactly when none counts. */
  lemma VerifyWhen(ref: GithubTaskRef, prs: Option<seq<PullRequest>>, linked: set<int>, issue: Option<IssueState>)
    requires prs.Some? ==> DistinctNumbers(prs.value)
    ensures var d := Verify(ref, prs, linked, issue).0;
            && (d.desired.None? <==> prs.None? || (issue.None? && IssueDecides(ref, prs.value)))
            && (d.desired == Some(Done) <==> prs.Some? && Complete(ref, prs.value, issue, {}))
            && (d.reason == NoLinkedPr <==> prs.Some? && NoneCount(ref, prs.value))
  {
    if prs.Some? {
      hide Verify, Counts;
      NoneCounted(ref, prs.value, linked, issue);
      hide Complete, Evaluate, IssueDecides;
      if issue.Some? {
        LazyIsEager(ref, prs.value, linked, issue.value);
        DoneIffComplete(ref, prs.value, linked, issue, {});
        EvaluateIsAuthoritative(ref, prs.value, linked, issue, {});
      } else {
        BlindVerify(ref, prs.value, linked);
      }
    }
  }

  lemma EvaluateIsAuthoritative(ref: GithubTaskRef, prs: seq<PullRequest>, linked: set<int>, issue: Option<IssueState>, superseded: set<int>)
    ensures Evaluate(ref, prs, linked, issue, superseded).desired.Some?
  {
    hide Judge, SortByNumber, EffectivePrs;
  }

  /** The Issue cannot be read. */
  lemma BlindVerify(ref: GithubTaskRef, prs: seq<PullRequest>, linked: set<int>)
    requires DistinctNumbers(prs)
    ensures var d := Verify(ref, Some(prs), linked, None).0;
            && (d.desired.None? <==> IssueDecides(ref, prs))
            && (d.desired == Some(Done) <==> Complete(ref, prs, None, {}))
  {
    hide Evaluate, Verify;
    FailedIssueRead(ref, prs, linked, IssueOpen);
    IssueMatters(ref, prs, linked);
    DoneIffComplete(ref, prs, linked, Some(IssueOpen), {});
    EvaluateIsAuthoritative(ref, prs, linked, Some(IssueOpen), {});
    UnknownIssueIsOpen(ref, prs);
    hide Complete;
  }

  lemma NoneCounted(ref: GithubTaskRef, prs: seq<PullRequest>, linked: set<int>, issue: Option<IssueState>)
    requires DistinctNumbers(prs)
    ensures Verify(ref, Some(prs), linked, issue).0.reason == NoLinkedPr <==> NoneCount(ref, prs)
  {
    hide Evaluate, UnresolvedNumbers, SupersededNumbers, Counts, Complete;
    CountedReason(ref, prs, linked, None);
    CountedReason(ref, prs, linked, issue);
  }

  lemma CountedReason(ref: GithubTaskRef, prs: seq<PullRequest>, linked: set<int>, issue: Option<IssueState>)
    requires DistinctNumbers(prs)
    ensures Evaluate(ref, prs, linked, issue, {}).reason == NoLinkedPr <==> NoneCount(ref, prs)
  {
    ReasonWhen(ref, prs, linked, issue, {});
    hide Evaluate, Counts, Landed, Complete;
  }

  lemma UnknownIssueIsOpen(ref: GithubTaskRef, prs: seq<PullRequest>)
    ensures Complete(ref, prs, None, {}) <==> Complete(ref, prs, Some(IssueOpen), {})
  {}

  /** The Issue changes the decision only by completing the card. */
  lemma IssueMatters(ref: GithubTaskRef, prs: seq<PullRequest>, linked: set<int>)
    requires DistinctNumbers(prs)
    ensures Evaluate(ref, prs, linked, Some(IssueOpen), {}) != Evaluate(ref, prs, linked, Some(IssueClosed), {})
            <==> IssueDecides(ref, prs)
  {
    DoneIffComplete(ref, prs, linked, Some(IssueOpen), {});
    DoneIffComplete(ref, prs, linked, Some(IssueClosed), {});
    hide SupersededNumbers, UnresolvedNumbers, Lineage, Complete, Counts;
    EffectiveMembers(ref, prs, {});
    JudgeAndIssue(ref, EffectivePrs(ref, SortByNumber(prs), {}));
    hide EffectivePrs, SortByNumber, Effective, ClosedUnmerged;
  }

  // ---------------------------------------------------------------- laziness

  /** Only the supersession test looks at the Issue. */
  lemma JudgeAndIssue(ref: GithubTaskRef, e: seq<PullRequest>)
    requires DistinctMembers(e)
    ensures Judge(ref, e, Some(IssueOpen)) == Judge(ref, e, None)
    ensures var asks := Judge(ref, e, None).1 == LinkedPrClosedNotMerged && SupersededNumbers(ref, e) == UnresolvedNumbers(ref, e);
            if asks then Judge(ref, e, Some(IssueClosed)) == (Done, SupersededPrMerged)
            else Judge(ref, e, Some(IssueClosed)) == Judge(ref, e, None)
  {
    if !AllMerged(ref, e) && !SomeOpen(e) {
      LineageIsReplacement(ref, e);
    }
  }

  /** Reading the Issue lazily decides as reading it always would; and it is
      read exactly when its state can change the decision. */
  lemma LazyIsEager(ref: GithubTaskRef, prs: seq<PullRequest>, linked: set<int>, issue: IssueState)
    requires DistinctNumbers(prs)
    ensures Verify(ref, Some(prs), linked, Some(issue)).0 == Evaluate(ref, prs, linked, Some(issue), {})
    ensures Verify(ref, Some(prs), linked, Some(issue)).1
            <==> Evaluate(ref, prs, linked, Some(IssueOpen), {}) != Evaluate(ref, prs, linked, Some(IssueClosed), {})
  {
    hide SupersededNumbers, UnresolvedNumbers, Lineage, Counts;
    EffectiveMembers(ref, prs, {});
    JudgeAndIssue(ref, EffectivePrs(ref, SortByNumber(prs), {}));
    hide EffectivePrs, SortByNumber, Effective, ClosedUnmerged;
  }

  /** A failed Issue read spoils the decision exactly when the Issue is read. */
  lemma FailedIssueRead(ref: GithubTaskRef, prs: seq<PullRequest>, linked: set<int>, issue: IssueState)
    requires DistinctNumbers(prs)
    ensures var lazily := Verify(ref, Some(prs), linked, None);
            if Evaluate(ref, prs, linked, Some(IssueOpen), {}) != Evaluate(ref, prs, linked, Some(IssueClosed), {})
            then lazily.0.desired.None? && lazily.0.reason == GithubQueryFailed
            else lazily.0 == Evaluate(ref, prs, linked, Some(issue), {})
  {
    LazyIsEager(ref, prs, linked, issue);
  }
}
