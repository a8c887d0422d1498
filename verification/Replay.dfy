/** The dry run: replaying resource admission over the candidates that the core
    dispatcher has already chosen, and dropping those a claim would refuse. */
module DryRunReplay {
  import opened Prelude
  import opened ResourceAdmission

  /** One entry of the core's ordered spawn list, assignee stripped. */
  datatype Candidate = Candidate(taskId: TaskId, assignee: string)

  /** An unclaimed row of the telemetry pass. */
  datatype Pending = Pending(taskId: TaskId, assignee: string, lane: string)

  datatype Diagnostic =
    | ConfigInvalid(taskId: TaskId)
    | AdmissionFailed(taskId: TaskId, resource: Resource)
    | Busy(taskId: TaskId, lane: string, resource: Resource, active: nat, capacity: nat)

  /** What the replay reads: whether a profile exists, or that the probe is
      missing; and the workers counted on a resource, unless the count fails. */
  datatype World = World(profile: string -> Option<bool>, count: Resource -> Option<nat>)

  // ------------------------------------------------- what real claims would do

  /** The guarded claims of `cands`, one after the other, over `busy` slots. */
  function Claims(cfg: Config, busy: Resource -> Option<nat>, cands: seq<Candidate>): (admitted: seq<Candidate>)
    decreases |cands|
  {
    if cands == [] then []
    else
      match PolicyFor(cfg, cands[0].assignee)
      case Ungated => [cands[0]] + Claims(cfg, busy, cands[1..])
      case Ambiguous => Claims(cfg, busy, cands[1..])
      case Gated(r) =>
        if busy(r).None? || busy(r).value >= cfg.capacity(r) then Claims(cfg, busy, cands[1..])
        else [cands[0]] + Claims(cfg, Taken(busy, r), cands[1..])
  }

  function Taken(busy: Resource -> Option<nat>, r: Resource): (more: Resource -> Option<nat>) {
    q => if q == r && busy(q).Some? then Some(busy(q).value + 1) else busy(q)
  }

  // --------------------------------------------------- the rule behind the replay

  predicate Competes(cfg: Config, w: World, c: Candidate, r: Resource) {
    w.profile(c.assignee) == Some(true) && PolicyFor(cfg, c.assignee) == Gated(r)
  }

  /** How many of the first `i` candidates compete for `r`. */
  function Rank(cfg: Config, w: World, cands: seq<Candidate>, i: nat, r: Resource): (n: nat)
    requires i <= |cands|
    ensures n <= i
  {
    if i == 0 then 0 else Rank(cfg, w, cands, i - 1, r) + if Competes(cfg, w, cands[i - 1], r) then 1 else 0
  }

  /** Slots in use once `n` candidates have competed for `r`. */
  function InUse(base: nat, capacity: nat, n: nat): (used: nat) {
    Min(base + n, Max(base, capacity))
  }

  /** The evidence against candidate `i`: it is deferred unless its rank on its
      resource leaves a free slot. */
  function Against(cfg: Config, w: World, cands: seq<Candidate>, i: nat): (verdict: Option<Diagnostic>)
    requires i < |cands|
    ensures verdict.Some? ==> verdict.value.taskId == cands[i].taskId
  {
    var c := cands[i];
    if c.assignee == "" || w.profile(c.assignee) != Some(true) then None
    else match PolicyFor(cfg, c.assignee)
         case Ungated => None
         case Ambiguous => Some(ConfigInvalid(c.taskId))
         case Gated(r) =>
           var n := Rank(cfg, w, cands, i, r);
           if w.count(r).None? then Some(AdmissionFailed(c.taskId, r))
           else if w.count(r).value + n < cfg.capacity(r) then None
           else Some(Busy(c.taskId, "dispatch", r, InUse(w.count(r).value, cfg.capacity(r), n), cfg.capacity(r)))
  }

  function Deferrals(cfg: Config, w: World, cands: seq<Candidate>, i: nat): (found: seq<Diagnostic>)
    requires i <= |cands|
    ensures |found| <= i
  {
    if i == 0 then []
    else
      var verdict := Against(cfg, w, cands, i - 1);
      Deferrals(cfg, w, cands, i - 1) + if verdict.Some? then [verdict.value] else []
  }

  /** A named profile that the probe cannot look up. */
  predicate Unprobed(w: World, c: Candidate) {
    c.assignee != "" && w.profile(c.assignee).None?
  }

  predicate NoneUnprobed(w: World, cands: seq<Candidate>) {
    forall c :: c in cands ==> !Unprobed(w, c)
  }

  /** Every named profile can be looked up. */
  lemma NoneUnprobedWhen(w: World, cands: seq<Candidate>)
    ensures NoneUnprobed(w, cands) <==> forall c :: c in cands && c.assignee != "" ==> w.profile(c.assignee).Some?
  {}

  function Ids(cands: seq<Candidate>): (ids: set<TaskId>) {
    set c | c in cands :: c.taskId
  }

  /** The counts that the replay keeps for the resources it has met. */
  ghost predicate Tracks(cfg: Config, w: World, cands: seq<Candidate>, i: nat, virtual: map<Resource, nat>)
    requires i <= |cands|
  {
    forall r ::
      && (r in virtual <==> Rank(cfg, w, cands, i, r) > 0 && w.count(r).Some?)
      && (r in virtual ==> virtual[r] == InUse(w.count(r).value, cfg.capacity(r), Rank(cfg, w, cands, i, r)))
  }

  lemma RankStep(cfg: Config, w: World, cands: seq<Candidate>, i: nat)
    requires i < |cands|
    ensures forall r :: Rank(cfg, w, cands, i + 1, r)
              == Rank(cfg, w, cands, i, r) + if Competes(cfg, w, cands[i], r) then 1 else 0
  {}

  lemma TracksSkip(cfg: Config, w: World, cands: seq<Candidate>, i: nat, virtual: map<Resource, nat>)
    requires i < |cands| && Tracks(cfg, w, cands, i, virtual)
    requires forall r :: Competes(cfg, w, cands[i], r) ==> w.count(r).None?
    ensures Tracks(cfg, w, cands, i + 1, virtual)
  {
    RankStep(cfg, w, cands, i);
  }

  /** Looking at the count of `r`, and taking a slot if one is free. */
  lemma TracksLook(cfg: Config, w: World, cands: seq<Candidate>, i: nat, virtual: map<Resource, nat>, r: Resource)
    requires i < |cands| && Tracks(cfg, w, cands, i, virtual)
    requires Competes(cfg, w, cands[i], r) && w.count(r).Some?
    ensures var active := if r in virtual then virtual[r] else w.count(r).value;
            && active == InUse(w.count(r).value, cfg.capacity(r), Rank(cfg, w, cands, i, r))
            && (active >= cfg.capacity(r) ==> Tracks(cfg, w, cands, i + 1, virtual[r := active]))
            && (active < cfg.capacity(r) ==> Tracks(cfg, w, cands, i + 1, virtual[r := active + 1]))
  {
    RankStep(cfg, w, cands, i);
  }

  /** One candidate: its verdict is recorded, or it takes a slot. */
  method ReplayOne(cfg: Config, w: World, cands: seq<Candidate>, i: nat, diagnostics0: seq<Diagnostic>,
                   virtual0: map<Resource, nat>, consumed0: set<Resource>)
    returns (diagnostics: seq<Diagnostic>, virtual: map<Resource, nat>, consumed: set<Resource>)
    requires i < |cands| && !Unprobed(w, cands[i]) && Tracks(cfg, w, cands, i, virtual0)
    ensures var verdict := Against(cfg, w, cands, i);
            diagnostics == diagnostics0 + if verdict.Some? then [verdict.value] else []
    ensures Tracks(cfg, w, cands, i + 1, virtual)
    ensures forall r :: r in consumed <==> r in consumed0 || Competes(cfg, w, cands[i], r)
  {
    hide PolicyFor, Rank;
    var c := cands[i];
    diagnostics, virtual, consumed := diagnostics0, virtual0, consumed0;
    PolicyNeedsAName(cfg, c.assignee);
    var policy := PolicyFor(cfg, c.assignee);
    if c.assignee == "" || !w.profile(c.assignee).value || policy.Ungated? {
      TracksSkip(cfg, w, cands, i, virtual);
      return;
    }
    assert w.profile(c.assignee) == Some(true);
    if policy.Ambiguous? {
      TracksSkip(cfg, w, cands, i, virtual);
      diagnostics := diagnostics + [ConfigInvalid(c.taskId)];
      return;
    }
    var r := policy.resource;
    assert r in virtual ==> w.count(r).Some?;
    consumed := consumed + {r};
    if r !in virtual && w.count(r).None? {
      TracksSkip(cfg, w, cands, i, virtual);
      diagnostics := diagnostics + [AdmissionFailed(c.taskId, r)];
      return;
    }
    TracksLook(cfg, w, cands, i, virtual, r);
    var active := if r in virtual then virtual[r] else w.count(r).value;
    if active >= cfg.capacity(r) {
      virtual := virtual[r := active];
      diagnostics := diagnostics + [Busy(c.taskId, "dispatch", r, active, cfg.capacity(r))];
    } else {
      virtual := virtual[r := active + 1];
    }
  }

  /** The candidate pass. */
  method ReplayCandidates(cfg: Config, w: World, cands: seq<Candidate>)
    returns (stopped: bool, diagnostics: seq<Diagnostic>, virtual: map<Resource, nat>, consumed: set<Resource>)
    ensures stopped <==> !NoneUnprobed(w, cands)
    ensures !stopped ==> diagnostics == Deferrals(cfg, w, cands, |cands|)
    ensures !stopped ==> Tracks(cfg, w, cands, |cands|, virtual)
    ensures !stopped ==> forall r :: r in consumed <==> Rank(cfg, w, cands, |cands|, r) > 0
  {
    virtual, consumed, diagnostics := map[], {}, [];
    for i := 0 to |cands|
      invariant NoneUnprobed(w, cands[..i])
      invariant diagnostics == Deferrals(cfg, w, cands, i)
      invariant Tracks(cfg, w, cands, i, virtual)
      invariant forall r :: r in consumed <==> Rank(cfg, w, cands, i, r) > 0
    {
      assert cands[..i + 1] == cands[..i] + [cands[i]];
      if Unprobed(w, cands[i]) {
        return true, [], map[], {};
      }
      diagnostics, virtual, consumed := ReplayOne(cfg, w, cands, i, diagnostics, virtual, consumed);
      RankStep(cfg, w, cands, i);
    }
    assert cands[..|cands|] == cands;
    stopped := false;
  }

  lemma PolicyNeedsAName(cfg: Config, name: string)
    ensures name == "" ==> PolicyFor(cfg, name).Ungated?
  {}

  /** Another waiting row whose resource the candidates fill up. */
  ghost predicate Crowded(cfg: Config, w: World, cands: seq<Candidate>, p: Pending, r: Resource) {
    && (forall c :: c in cands ==> c.taskId != p.taskId)
    && p.assignee != "" && w.profile(p.assignee) == Some(true) && PolicyFor(cfg, p.assignee) == Gated(r)
    && Rank(cfg, w, cands, |cands|, r) > 0
    && w.count(r).Some? && w.count(r).value + Rank(cfg, w, cands, |cands|, r) >= cfg.capacity(r)
  }

  /** One report for each crowded row, in order: the slots in use are then the
      capacity, or what was in use above it before. */
  ghost function Telemetry(cfg: Config, w: World, cands: seq<Candidate>, pending: seq<Pending>): (found: seq<Diagnostic>)
    ensures |found| <= |pending|
  {
    if pending == [] then []
    else
      var p := pending[|pending| - 1];
      Telemetry(cfg, w, cands, pending[..|pending| - 1])
      + if PolicyFor(cfg, p.assignee).Gated? && Crowded(cfg, w, cands, p, PolicyFor(cfg, p.assignee).resource)
        then var r := PolicyFor(cfg, p.assignee).resource;
             [Busy(p.taskId, p.lane, r, Max(w.count(r).value, cfg.capacity(r)), cfg.capacity(r))]
        else []
  }

  /** What the candidate pass hands on is what it has met. */
  ghost predicate HandedOn(cfg: Config, w: World, cands: seq<Candidate>, virtual: map<Resource, nat>, consumed: set<Resource>) {
    && Tracks(cfg, w, cands, |cands|, virtual)
    && forall r :: r in consumed <==> Rank(cfg, w, cands, |cands|, r) > 0
  }

  /** The virtual count of a consumed resource reaches the capacity exactly when
      base and rank do. */
  lemma CrowdedWhen(cfg: Config, w: World, cands: seq<Candidate>, virtual: map<Resource, nat>, consumed: set<Resource>, r: Resource)
    requires HandedOn(cfg, w, cands, virtual, consumed) && cfg.capacity(r) >= 1
    ensures r in consumed && (if r in virtual then virtual[r] else 0) >= cfg.capacity(r)
            <==> && Rank(cfg, w, cands, |cands|, r) > 0 && w.count(r).Some?
                 && w.count(r).value + Rank(cfg, w, cands, |cands|, r) >= cfg.capacity(r)
    ensures r in virtual && virtual[r] >= cfg.capacity(r) ==> virtual[r] == Max(w.count(r).value, cfg.capacity(r))
  {
    hide Rank;
  }

  /** Telemetry about other rows, which never names a candidate. */
  method ReportPending(cfg: Config, w: World, ghost cands: seq<Candidate>, pending: seq<Pending>, ids: set<TaskId>,
                       virtual: map<Resource, nat>, consumed: set<Resource>)
    returns (extra: seq<Diagnostic>)
    requires forall r :: cfg.capacity(r) >= 1
    requires ids == Ids(cands) && HandedOn(cfg, w, cands, virtual, consumed)
    ensures extra == Telemetry(cfg, w, cands, pending)
    ensures forall d :: d in extra ==> d.Busy? && d.taskId !in ids && d.resource in consumed
  {
    hide PolicyFor, Rank;
    extra := [];
    for k := 0 to |pending|
      invariant extra == Telemetry(cfg, w, cands, pending[..k])
      invariant forall d :: d in extra ==> d.Busy? && d.taskId !in ids && d.resource in consumed
    {
      hide HandedOn, Tracks;
      var row := pending[k];
      assert pending[..k + 1][..k] == pending[..k];
      assert row.taskId in ids <==> exists c :: c in cands && c.taskId == row.taskId;
      if row.taskId in ids || row.assignee == "" || w.profile(row.assignee) != Some(true) {
        continue;
      }
      var policy := PolicyFor(cfg, row.assignee);
      if !policy.Gated? {
        continue;
      }
      CrowdedWhen(cfg, w, cands, virtual, consumed, policy.resource);
      if policy.resource !in consumed
         || (if policy.resource in virtual then virtual[policy.resource] else 0) < cfg.capacity(policy.resource) {
        continue;
      }
      extra := extra + [Busy(row.taskId, row.lane, policy.resource, virtual[policy.resource], cfg.capacity(policy.resource))];
    }
    assert pending[..|pending|] == pending;
  }

  /** Where no candidate competes there is nothing to report. */
  lemma {:induction false} NothingCrowded(cfg: Config, w: World, cands: seq<Candidate>, pending: seq<Pending>)
    requires forall r :: Rank(cfg, w, cands, |cands|, r) == 0
    ensures Telemetry(cfg, w, cands, pending) == []
  {
    if pending != [] {
      NothingCrowded(cfg, w, cands, pending[..|pending| - 1]);
    }
  }

  function DeferredIds(diagnostics: seq<Diagnostic>): (ids: set<TaskId>) {
    set d | d in diagnostics :: d.taskId
  }

  /** `_attach_dispatch_diagnostics` of a dry run: named candidates are dropped. */
  function Keep(cands: seq<Candidate>, ids: set<TaskId>): (kept: seq<Candidate>) {
    if cands == [] then []
    else (if cands[0].taskId in ids then [] else [cands[0]]) + Keep(cands[1..], ids)
  }

  /** `kept` lists, in order, the positions whose ids are not named. */
  ghost predicate KeepsUnnamed(cands: seq<Candidate>, ids: set<TaskId>, kept: seq<nat>, n: nat)
    requires n <= |cands|
  {
    && (forall j :: 0 <= j < |kept| ==> kept[j] < n)
    && (forall i, j :: 0 <= i < j < |kept| ==> kept[i] < kept[j])
    && (forall i :: 0 <= i < n ==> (i in kept <==> cands[i].taskId !in ids))
  }

  /** `retained` holds the candidates at the positions of `kept`. */
  ghost predicate Picks(cands: seq<Candidate>, kept: seq<nat>, retained: seq<Candidate>) {
    |retained| == |kept| && forall j :: 0 <= j < |kept| ==> kept[j] < |cands| && retained[j] == cands[kept[j]]
  }

  lemma PicksOneMore(cands: seq<Candidate>, kept: seq<nat>, retained: seq<Candidate>, k: nat)
    requires Picks(cands, kept, retained) && k < |cands|
    ensures Picks(cands, kept + [k], retained + [cands[k]])
  {}

  lemma KeepsOneMore(cands: seq<Candidate>, ids: set<TaskId>, kept: seq<nat>, n: nat)
    requires n < |cands| && KeepsUnnamed(cands, ids, kept, n)
    ensures KeepsUnnamed(cands, ids, if cands[n].taskId in ids then kept else kept + [n], n + 1)
  {
    assert n !in kept;
  }

  lemma {:induction false} KeepSnoc(cands: seq<Candidate>, ids: set<TaskId>, c: Candidate)
    ensures Keep(cands + [c], ids) == Keep(cands, ids) + if c.taskId in ids then [] else [c]
  {
    if cands != [] {
      KeepSnoc(cands[1..], ids, c);
      assert (cands + [c])[1..] == cands[1..] + [c];
    }
  }

  /** An order-preserving subsequence: exactly the candidates that no diagnostic names. */
  method Retain(cands: seq<Candidate>, diagnostics: seq<Diagnostic>) returns (retained: seq<Candidate>, ghost kept: seq<nat>)
    ensures KeepsUnnamed(cands, DeferredIds(diagnostics), kept, |cands|)
    ensures Picks(cands, kept, retained)
    ensures retained == Keep(cands, DeferredIds(diagnostics))
  {
    retained, kept := WithoutIds(cands, DeferredIds(diagnostics));
  }

  method WithoutIds(cands: seq<Candidate>, ids: set<TaskId>) returns (retained: seq<Candidate>, ghost kept: seq<nat>)
    ensures KeepsUnnamed(cands, ids, kept, |cands|)
    ensures Picks(cands, kept, retained)
    ensures retained == Keep(cands, ids)
  {
    retained, kept := [], [];
    for k := 0 to |cands|
      invariant retained == Keep(cands[..k], ids)
      invariant KeepsUnnamed(cands, ids, kept, k)
      invariant Picks(cands, kept, retained)
    {
      hide Keep, KeepsUnnamed, Picks;
      assert cands[..k + 1] == cands[..k] + [cands[k]];
      KeepSnoc(cands[..k], ids, cands[k]);
      KeepsOneMore(cands, ids, kept, k);
      PicksOneMore(cands, kept, retained, k);
      if cands[k].taskId in ids {
        continue;
      }
      retained, kept := retained + [cands[k]], kept + [k];
    }
    assert cands[..|cands|] == cands;
  }

  /** The dry run: replay, telemetry, truncation to `limit`, filter. */
  method DryRun(cfg: Config, w: World, cands: seq<Candidate>, pending: seq<Pending>, limit: nat)
    returns (retained: seq<Candidate>, diagnostics: seq<Diagnostic>)
    requires forall r :: cfg.capacity(r) >= 1
    ensures !NoneUnprobed(w, cands) ==> diagnostics == [] && retained == cands
    ensures NoneUnprobed(w, cands) ==>
              retained == Keep(cands, DeferredIds(Shown(Deferrals(cfg, w, cands, |cands|), limit)))
    ensures NoneUnprobed(w, cands) ==>
              diagnostics == Shown(Deferrals(cfg, w, cands, |cands|) + Telemetry(cfg, w, cands, pending), limit)
    ensures |diagnostics| <= limit
    ensures NoneUnprobed(w, cands) ==>
              Shown(diagnostics, |Deferrals(cfg, w, cands, |cands|)|) == Shown(Deferrals(cfg, w, cands, |cands|), limit)
  {
    var stopped, found, virtual, consumed := ReplayCandidates(cfg, w, cands);
    if stopped {
      diagnostics := [];
    } else {
      var extra: seq<Diagnostic> := [];
      if consumed == {} {
        NothingCrowded(cfg, w, cands, pending);
      } else {
        extra := ReportPending(cfg, w, cands, pending, Ids(cands), virtual, consumed);
      }
      diagnostics := Shown(found + extra, limit);
      ShownSplit(found, extra, limit);
      KeepIgnores(cands, DeferredIds(Shown(found, limit)), DeferredIds(diagnostics));
    }
    ghost var kept;
    retained, kept := Retain(cands, diagnostics);
    if stopped {
      KeepAll(cands, DeferredIds(diagnostics));
    }
  }

  function Shown(diagnostics: seq<Diagnostic>, limit: nat): (shown: seq<Diagnostic>)
    ensures |shown| <= limit
  {
    if |diagnostics| <= limit then diagnostics else diagnostics[..limit]
  }

  lemma ShownSplit(found: seq<Diagnostic>, extra: seq<Diagnostic>, limit: nat)
    ensures forall d :: d in Shown(found + extra, limit) ==> d in Shown(found, limit) || d in extra
    ensures forall d :: d in Shown(found, limit) ==> d in Shown(found + extra, limit)
    ensures Shown(Shown(found + extra, limit), |found|) == Shown(found, limit)
  {
    if |found| <= limit {
      assert Shown(found + extra, limit)[..|found|] == found;
    } else {
      assert (found + extra)[..limit] == found[..limit];
    }
  }

  lemma {:induction false} KeepIgnores(cands: seq<Candidate>, a: set<TaskId>, b: set<TaskId>)
    requires forall c :: c in cands ==> (c.taskId in a <==> c.taskId in b)
    ensures Keep(cands, a) == Keep(cands, b)
  {
    if cands != [] {
      KeepIgnores(cands[1..], a, b);
    }
  }

  lemma {:induction false} KeepAll(cands: seq<Candidate>, ids: set<TaskId>)
    requires forall c :: c in cands ==> c.taskId !in ids
    ensures Keep(cands, ids) == cands
  {
    if cands != [] {
      KeepAll(cands[1..], ids);
    }
  }
}
