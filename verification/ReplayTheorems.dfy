/** The dry run predicts the claims, and exactly when. */
module ReplayTheorems {
  import opened Prelude
  import opened ResourceAdmission
  import opened AdmissionProtocol
  import opened DryRunReplay

  predicate DistinctCandidates(cands: seq<Candidate>) {
    forall i, j :: 0 <= i < j < |cands| ==> cands[i].taskId != cands[j].taskId
  }

  predicate ProfilesExist(w: World, cands: seq<Candidate>) {
    forall c :: c in cands && c.assignee != "" ==> w.profile(c.assignee) == Some(true)
  }

  /** The candidates from `i` on that nothing speaks against. */
  function Admitted(cfg: Config, w: World, cands: seq<Candidate>, i: nat): (admitted: seq<Candidate>)
    requires i <= |cands|
    decreases |cands| - i
  {
    if i == |cands| then []
    else (if Against(cfg, w, cands, i).None? then [cands[i]] else []) + Admitted(cfg, w, cands, i + 1)
  }

  /** What a claim would count on `r` after `n` competitors. */
  function CountAfter(cfg: Config, w: World, r: Resource, n: nat): (count: Option<nat>) {
    if w.count(r).None? then None else Some(InUse(w.count(r).value, cfg.capacity(r), n))
  }

  /** The rank rule is what sequential claims do. */
  lemma {:induction false} ClaimsFollowRank(cfg: Config, w: World, cands: seq<Candidate>, i: nat, busy: Resource -> Option<nat>)
    requires i <= |cands| && ProfilesExist(w, cands)
    requires forall r :: busy(r) == CountAfter(cfg, w, r, Rank(cfg, w, cands, i, r))
    ensures Claims(cfg, busy, cands[i..]) == Admitted(cfg, w, cands, i)
    decreases |cands| - i
  {
    hide PolicyFor;
    if i < |cands| {
      var c := cands[i];
      assert c in cands && cands[i..][0] == c && cands[i..][1..] == cands[i + 1..];
      RankStep(cfg, w, cands, i);
      PolicyNeedsAName(cfg, c.assignee);
      var policy := PolicyFor(cfg, c.assignee);
      if policy.Gated? && busy(policy.resource).Some? && busy(policy.resource).value < cfg.capacity(policy.resource) {
        ClaimsFollowRank(cfg, w, cands, i + 1, Taken(busy, policy.resource));
      } else {
        ClaimsFollowRank(cfg, w, cands, i + 1, busy);
      }
    }
  }

  /** The deferrals are the verdicts, in order. */
  lemma {:induction false} DeferralsAreVerdicts(cfg: Config, w: World, cands: seq<Candidate>, n: nat, d: Diagnostic)
    requires n <= |cands|
    ensures d in Deferrals(cfg, w, cands, n) <==> exists i :: 0 <= i < n && Against(cfg, w, cands, i) == Some(d)
  {
    if n > 0 {
      DeferralsAreVerdicts(cfg, w, cands, n - 1, d);
    }
  }

  lemma {:induction false} KeepIsAdmitted(cfg: Config, w: World, cands: seq<Candidate>, i: nat)
    requires i <= |cands| && DistinctCandidates(cands)
    ensures Keep(cands[i..], DeferredIds(Deferrals(cfg, w, cands, |cands|))) == Admitted(cfg, w, cands, i)
    decreases |cands| - i
  {
    hide Against, Deferrals;
    if i < |cands| {
      KeepIsAdmitted(cfg, w, cands, i + 1);
      assert cands[i..][1..] == cands[i + 1..];
      assert cands[i].taskId in DeferredIds(Deferrals(cfg, w, cands, |cands|)) <==> Against(cfg, w, cands, i).Some? by {
        NamedOnlyByItself(cfg, w, cands, i);
      }
    }
  }

  lemma NamedOnlyByItself(cfg: Config, w: World, cands: seq<Candidate>, i: nat)
    requires i < |cands| && DistinctCandidates(cands)
    ensures cands[i].taskId in DeferredIds(Deferrals(cfg, w, cands, |cands|)) <==> Against(cfg, w, cands, i).Some?
  {
    hide Deferrals;
    if Against(cfg, w, cands, i).Some? {
      DeferralsAreVerdicts(cfg, w, cands, |cands|, Against(cfg, w, cands, i).value);
    }
    forall d | d in Deferrals(cfg, w, cands, |cands|) && d.taskId == cands[i].taskId
      ensures Against(cfg, w, cands, i).Some?
    {
      DeferralsAreVerdicts(cfg, w, cands, |cands|, d);
    }
  }

  lemma {:induction false} DeferralsDistinct(cfg: Config, w: World, cands: seq<Candidate>, n: nat)
    requires n <= |cands| && DistinctCandidates(cands)
    ensures var found := Deferrals(cfg, w, cands, n);
            forall a, b :: 0 <= a < b < |found| ==> found[a].taskId != found[b].taskId
  {
    if n > 0 {
      DeferralsDistinct(cfg, w, cands, n - 1);
      var found := Deferrals(cfg, w, cands, n);
      forall a, b | 0 <= a < b < |found| ensures found[a].taskId != found[b].taskId {
        DeferralsAreVerdicts(cfg, w, cands, n - 1, found[a]);
      }
    }
  }

  lemma {:induction false} KeptIfNotNamed(cands: seq<Candidate>, ids: set<TaskId>, c: Candidate)
    requires c in cands && c.taskId !in ids
    ensures c in Keep(cands, ids)
  {
    if c != cands[0] {
      KeptIfNotNamed(cands[1..], ids, c);
    }
  }

  lemma {:induction false} AdmittedHasNoVerdict(cfg: Config, w: World, cands: seq<Candidate>, i: nat, c: Candidate)
    requires i <= |cands| && c in Admitted(cfg, w, cands, i)
    ensures exists j :: i <= j < |cands| && cands[j] == c && Against(cfg, w, cands, j).None?
    decreases |cands| - i
  {
    if !(Against(cfg, w, cands, i).None? && c == cands[i]) {
      AdmittedHasNoVerdict(cfg, w, cands, i + 1, c);
    }
  }

  /** A diagnostic list cut short lets a candidate through that no claim admits. */
  lemma TruncationLetsOneThrough(cfg: Config, w: World, cands: seq<Candidate>, limit: nat)
    requires DistinctCandidates(cands) && limit < |Deferrals(cfg, w, cands, |cands|)|
    ensures Keep(cands, DeferredIds(Shown(Deferrals(cfg, w, cands, |cands|), limit))) != Admitted(cfg, w, cands, 0)
  {
    hide Against;
    var found := Deferrals(cfg, w, cands, |cands|);
    var d := found[limit];
    DeferralsDistinct(cfg, w, cands, |cands|);
    DeferralsAreVerdicts(cfg, w, cands, |cands|, d);
    var i :| 0 <= i < |cands| && Against(cfg, w, cands, i) == Some(d);
    assert d.taskId == cands[i].taskId;
    KeptIfNotNamed(cands, DeferredIds(Shown(found, limit)), cands[i]);
    if cands[i] in Admitted(cfg, w, cands, 0) {
      AdmittedHasNoVerdict(cfg, w, cands, 0, cands[i]);
    }
  }

  /** With existing profiles and distinct ids, what the dry run retains is, in
      order, what sequential gated claims admit -- exactly when no more candidates
      are deferred than diagnostics are kept. */
  lemma DryRunIsFaithful(cfg: Config, w: World, cands: seq<Candidate>, limit: nat)
    requires DistinctCandidates(cands) && ProfilesExist(w, cands)
    ensures Keep(cands, DeferredIds(Shown(Deferrals(cfg, w, cands, |cands|), limit))) == Claims(cfg, w.count, cands)
            <==> |Deferrals(cfg, w, cands, |cands|)| <= limit
  {
    hide Against, Deferrals, Claims, Admitted, Keep;
    assert cands[0..] == cands;
    ClaimsFollowRank(cfg, w, cands, 0, w.count);
    if |Deferrals(cfg, w, cands, |cands|)| <= limit {
      KeepIsAdmitted(cfg, w, cands, 0);
    } else {
      TruncationLetsOneThrough(cfg, w, cands, limit);
    }
  }

  lemma ClaimShowsNoWorker(cfg: Config, s: State, s': State, d: Dispatcher, board: BoardId, r: Resource, verify: Verifier)
    requires StageInv(cfg, s) && ClaimStep(cfg, s, s', d)
    ensures RunSlots(cfg, r, board, s'.cards, s'.runs, s'.procs, verify)
         == RunSlots(cfg, r, board, s.cards, s.runs, s.procs, verify)
  {
    hide PolicyFor, Matches;
    assert !StageOf(s, d).Idle?;
    forall run ensures OccupyingRun(cfg, r, board, s'.cards, s'.procs, verify, run)
                       <==> OccupyingRun(cfg, r, board, s.cards, s.procs, verify, run)
    {
    }
    assert forall run :: run in s'.runs && run.pid.Some? ==> run in s.runs;
    assert forall run :: run in s.runs ==> run in s'.runs;
  }

  lemma ClaimShowsReservation(cfg: Config, s: State, s': State, d: Dispatcher, board: BoardId, r: Resource)
    requires StageInv(cfg, s) && ClaimStep(cfg, s, s', d)
    ensures CardSlots(cfg, r, board, s'.cards, s'.cards.Keys, s'.procs)
         == CardSlots(cfg, r, board, s.cards, s.cards.Keys, s.procs)
            + OwnSlot(s, StageOf(s, d), board, r)
    ensures Reservation(StageOf(s, d).task) !in CardSlots(cfg, r, board, s.cards, s.cards.Keys, s.procs)
  {
    hide PolicyFor, Matches;
    var task := StageOf(s, d).task;
    assert !StageOf(s, d).Idle?;
    assert OccupyingCard(cfg, r, board, s'.cards, s'.procs, task) <==> r == StageOf(s, d).resource && OnBoard(s.cards, board, task) by {
      MatchesOwnResource(cfg, s, s', d, r);
    }
    forall id | id in s.cards && id != task
      ensures OccupyingCard(cfg, r, board, s'.cards, s'.procs, id) <==> OccupyingCard(cfg, r, board, s.cards, s.procs, id)
      ensures s'.cards[id] == s.cards[id]
    {
    }
  }

  lemma MatchesOwnResource(cfg: Config, s: State, s': State, d: Dispatcher, r: Resource)
    requires StageInv(cfg, s) && ClaimStep(cfg, s, s', d)
    ensures Matches(cfg, r, s'.cards[StageOf(s, d).task].assignee) <==> r == StageOf(s, d).resource
  {
    assert !StageOf(s, d).Idle?;
  }

  /** The reservation that a claim makes, on the board of its card. */
  function OwnSlot(s: State, stage: Stage, board: BoardId, r: Resource): (slots: set<Slot>)
    requires stage.Scanning?
  {
    if r == stage.resource && OnBoard(s.cards, board, stage.task) then {Reservation(stage.task)} else {}
  }

  /** Why one claim is one more slot: in the protocol, a claim adds its own
      reservation to what its board shows, and nothing else to any board. */
  lemma ClaimShowsAsOneSlot(cfg: Config, s: State, s': State, d: Dispatcher, board: BoardId, r: Resource, verify: Verifier)
    requires StageInv(cfg, s) && ClaimStep(cfg, s, s', d)
    ensures SlotsOn(cfg, r, board, s'.cards, s'.runs, s'.procs, verify)
         == SlotsOn(cfg, r, board, s.cards, s.runs, s.procs, verify) + OwnSlot(s, StageOf(s, d), board, r)
    ensures Reservation(StageOf(s, d).task) !in SlotsOn(cfg, r, board, s.cards, s.runs, s.procs, verify)
  {
    hide ClaimStep, StageInv, CardSlots, RunSlots;
    ClaimShowsNoWorker(cfg, s, s', d, board, r, verify);
    ClaimShowsReservation(cfg, s, s', d, board, r);
  }
}
