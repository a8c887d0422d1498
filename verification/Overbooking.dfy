/** Both guards of the admission theorems are needed.  Each of them alone lets a
    run reach two live workers of one gated card, and an early end lets a resource
    exceed its capacity. */
module Overbooking {
  import opened Prelude
  import opened ResourceAdmission
  import opened AdmissionProtocol
  import opened AdmissionTheorems
  import opened SingleWorker

  /** Which of the two guards all steps of a run respect. */
  datatype Guards = Guards(reaps: bool, ends: bool)

  ghost predicate Fine(cfg: Config, g: Guards, s: State, s': State, step: Step) {
    && Next(cfg, s, s', step)
    && (g.reaps ==> ReapsBetweenClaims(s', step))
    && (g.ends ==> EndsOnRecord(cfg, s, step))
  }

  ghost predicate Follows(cfg: Config, g: Guards, states: seq<State>, steps: seq<Step>) {
    && |states| == |steps| + 1
    && forall i :: 0 <= i < |steps| ==> Fine(cfg, g, states[i], states[i + 1], steps[i])
  }

  ghost predicate IsWay(cfg: Config, g: Guards, states: seq<State>, steps: seq<Step>, s: State, s': State) {
    Follows(cfg, g, states, steps) && states[0] == s && states[|steps|] == s'
  }

  /** Some sequence of guarded steps leads from `s` to `s'`. */
  ghost predicate Leads(cfg: Config, g: Guards, s: State, s': State) {
    exists states, steps :: IsWay(cfg, g, states, steps, s, s')
  }

  lemma LeadsHere(cfg: Config, g: Guards, s: State)
    ensures Leads(cfg, g, s, s)
  {
    assert IsWay(cfg, g, [s], [], s, s);
  }

  lemma LeadsOne(cfg: Config, g: Guards, s: State, s': State, step: Step)
    requires Fine(cfg, g, s, s', step)
    ensures Leads(cfg, g, s, s')
  {
    hide Fine;
    assert IsWay(cfg, g, [s, s'], [step], s, s');
  }

  lemma LeadsOn(cfg: Config, g: Guards, a: State, b: State, c: State)
    requires Leads(cfg, g, a, b) && Leads(cfg, g, b, c)
    ensures Leads(cfg, g, a, c)
  {
    hide Fine;
    var xs, ps :| IsWay(cfg, g, xs, ps, a, b);
    var ys, qs :| IsWay(cfg, g, ys, qs, b, c);
    var zs, rs := xs + ys[1..], ps + qs;
    forall i | 0 <= i < |rs| ensures Fine(cfg, g, zs[i], zs[i + 1], rs[i]) {
      if i < |ps| {
        assert Fine(cfg, g, xs[i], xs[i + 1], ps[i]);
      } else {
        var k := i - |ps|;
        assert zs[i] == ys[k] && zs[i + 1] == ys[k + 1];
        assert Fine(cfg, g, ys[k], ys[k + 1], qs[k]);
      }
    }
    assert IsWay(cfg, g, zs, rs, a, c);
  }

  ghost predicate IsGuardedRun(cfg: Config, g: Guards, states: seq<State>, steps: seq<Step>, s: State, s': State) {
    && IsRun(cfg, states, steps) && states[0] == s && states[|steps|] == s'
    && (g.reaps ==> AllReapBetween(states, steps, |steps|))
    && (g.ends ==> AllEndOnRecord(cfg, states, steps, |steps|))
  }

  /** From a start, what is led to is reached by a run that keeps the guards. */
  lemma LeadsIsRun(cfg: Config, g: Guards, s: State, s': State)
    requires Start(cfg, s) && Leads(cfg, g, s, s')
    ensures exists states, steps :: IsGuardedRun(cfg, g, states, steps, s, s')
  {
    hide Next, ReapsBetweenClaims, EndsOnRecord, Start;
    var states, steps :| IsWay(cfg, g, states, steps, s, s');
    forall i | 0 <= i < |steps|
      ensures Next(cfg, states[i], states[i + 1], steps[i])
      ensures g.reaps ==> ReapsBetweenClaims(states[i + 1], steps[i])
      ensures g.ends ==> EndsOnRecord(cfg, states[i], steps[i])
    {
      assert Fine(cfg, g, states[i], states[i + 1], steps[i]);
    }
    assert IsGuardedRun(cfg, g, states, steps, s, s');
  }

  /** What every board shows of a resource lies within `seen`. */
  ghost predicate Shows(cfg: Config, s: State, r: Resource, verify: Verifier, seen: set<Slot>) {
    forall b :: b in cfg.boards ==> SlotsOn(cfg, r, b, s.cards, s.runs, s.procs, verify) <= seen
  }

  function WithStage(s: State, d: Dispatcher, stage: Stage): (next: State) {
    s.(stages := s.stages[d := stage])
  }

  /** A scan can visit all boards, in any order, while nothing else happens. */
  lemma {:induction false} ScanAll(cfg: Config, g: Guards, s: State, d: Dispatcher, verify: Verifier, seen: set<Slot>)
    returns (s': State)
    requires StageOf(s, d).Scanning? && StageOf(s, d).scanned <= cfg.boards && StageOf(s, d).slots <= seen
    requires Honest(s.procs, verify) && Shows(cfg, s, StageOf(s, d).resource, verify, seen)
    ensures Leads(cfg, g, s, s')
    ensures var stage := StageOf(s, d);
            && StageOf(s', d).Scanning? && StageOf(s', d).slots <= seen
            && s' == WithStage(s, d, Scanning(stage.task, stage.resource, cfg.boards, StageOf(s', d).slots))
    decreases |cfg.boards - StageOf(s, d).scanned|
  {
    hide SlotsOn, Leads;
    var stage := StageOf(s, d);
    if stage.scanned == cfg.boards {
      LeadsHere(cfg, g, s);
      s' := s;
      assert s.stages[d := stage] == s.stages;
    } else {
      assert cfg.boards == stage.scanned + (cfg.boards - stage.scanned);
      var board :| board in cfg.boards - stage.scanned;
      var next := WithStage(s, d, stage.(scanned := stage.scanned + {board},
                    slots := stage.slots + SlotsOn(cfg, stage.resource, board, s.cards, s.runs, s.procs, verify)));
      assert Fine(cfg, g, s, next, ScanNext(d, board, verify));
      LeadsOne(cfg, g, s, next, ScanNext(d, board, verify));
      assert cfg.boards - (stage.scanned + {board}) == cfg.boards - stage.scanned - {board};
      s' := ScanAll(cfg, g, next, d, verify, seen);
      LeadsOn(cfg, g, s, next, s');
      assert s.stages[d := StageOf(next, d)][d := StageOf(s', d)] == s.stages[d := StageOf(s', d)];
    }
  }

  /** The lock is free and the reap check finds no live process on record. */
  ghost predicate MayTry(cfg: Config, s: State, d: Dispatcher, t: TaskId, r: Resource) {
    && StageOf(s, d).Idle? && t in s.cards && PolicyFor(cfg, s.cards[t].assignee) == Gated(r) && r !in s.locks
    && (NewestPid(s.runs, t).Some? ==> NewestPid(s.runs, t).value !in s.procs)
  }

  /** A dispatcher takes the lock and passes the reap check. */
  lemma LockAndReap(cfg: Config, g: Guards, s: State, d: Dispatcher, t: TaskId, r: Resource, verify: Verifier) returns (s': State)
    requires MayTry(cfg, s, d, t, r) && Honest(s.procs, verify)
    requires g.reaps ==> NoReservation(s, t)
    ensures Leads(cfg, g, s, s')
    ensures s' == WithStage(s, d, Scanning(t, r, {}, {})).(locks := s.locks[r := d])
  {
    hide PolicyFor, NewestPidRun, Leads;
    var locked := WithStage(s, d, Locked(t, r)).(locks := s.locks[r := d]);
    assert Fine(cfg, g, s, locked, TryLock(d, t));
    LeadsOne(cfg, g, s, locked, TryLock(d, t));
    s' := WithStage(locked, d, Scanning(t, r, {}, {}));
    assert QuiesceVerdict(locked, t, verify, true).Clear?;
    assert Fine(cfg, g, locked, s', Quiesce(d, verify, true));
    LeadsOne(cfg, g, locked, s', Quiesce(d, verify, true));
    LeadsOn(cfg, g, s, locked, s');
    assert s.stages[d := Locked(t, r)][d := Scanning(t, r, {}, {})] == s.stages[d := Scanning(t, r, {}, {})];
  }

  /** A finished scan that leaves a free slot is followed by the claim. */
  lemma ScanAndClaim(cfg: Config, g: Guards, s: State, d: Dispatcher, verify: Verifier, seen: set<Slot>) returns (s': State)
    requires StageOf(s, d).Scanning? && StageOf(s, d).scanned == {} && StageOf(s, d).slots == {}
    requires Honest(s.procs, verify) && Shows(cfg, s, StageOf(s, d).resource, verify, seen)
    requires |seen| < cfg.capacity(StageOf(s, d).resource)
    requires StageOf(s, d).task in s.cards && Claimable(s.cards[StageOf(s, d).task])
    ensures Leads(cfg, g, s, s')
    ensures s' == Unlocked(Claimed(s, StageOf(s, d).task), d, StageOf(s, d).resource)
  {
    hide Leads, Shows, SlotsOn;
    var mid := ScanAll(cfg, g, s, d, verify, seen);
    SubsetCardinality(StageOf(mid, d).slots, seen);
    s' := ClaimCounted(cfg, g, mid, d);
    LeadsOn(cfg, g, s, mid, s');
    assert mid.stages[d := Idle] == s.stages[d := Idle];
  }

  lemma ClaimCounted(cfg: Config, g: Guards, s: State, d: Dispatcher) returns (s': State)
    requires StageOf(s, d).Scanning? && StageOf(s, d).scanned == cfg.boards
    requires |StageOf(s, d).slots| < cfg.capacity(StageOf(s, d).resource)
    requires StageOf(s, d).task in s.cards && Claimable(s.cards[StageOf(s, d).task])
    ensures Leads(cfg, g, s, s')
    ensures s' == Unlocked(Claimed(s, StageOf(s, d).task), d, StageOf(s, d).resource)
  {
    hide Leads;
    s' := Unlocked(Claimed(s, StageOf(s, d).task), d, StageOf(s, d).resource);
    LeadsOne(cfg, g, s, s', Claim(d));
  }

  /** One undisturbed gated claim. */
  lemma GatedClaim(cfg: Config, g: Guards, s: State, d: Dispatcher, t: TaskId, r: Resource, verify: Verifier, seen: set<Slot>)
    returns (s': State)
    requires MayTry(cfg, s, d, t, r) && Claimable(s.cards[t]) && Honest(s.procs, verify)
    requires Shows(cfg, s, r, verify, seen) && |seen| < cfg.capacity(r)
    ensures Leads(cfg, g, s, s')
    ensures s' == Claimed(s, t).(stages := s.stages[d := Idle])
  {
    hide Leads, SlotsOn, PolicyFor, NewestPid;
    var mid := LockAndReap(cfg, g, s, d, t, r, verify);
    assert Shows(cfg, mid, r, verify, seen);
    s' := ScanAndClaim(cfg, g, mid, d, verify, seen);
    LeadsOn(cfg, g, s, mid, s');
    assert s.locks[r := d] - {r} == s.locks;
    assert s.stages[d := Scanning(t, r, {}, {})][d := Idle] == s.stages[d := Idle];
  }

  function SpawnedState(s: State, t: TaskId, p: Pid): (s': State)
    requires t in s.cards
  {
    s.(cards := s.cards[t := s.cards[t].(spawned := Some(p))], procs := s.procs[p := HermesWorker(t)])
  }

  lemma SpawnOne(cfg: Config, g: Guards, s: State, t: TaskId, p: Pid)
    requires t in s.cards && Reserved(s.cards[t]) && s.cards[t].spawned.None? && p !in s.procs
    ensures Leads(cfg, g, s, SpawnedState(s, t, p))
  {
    hide Leads;
    LeadsOne(cfg, g, s, SpawnedState(s, t, p), Spawn(t, p));
  }

  // --------------------------------------------- a reservation passes the reap check

  /** A recorded worker outlives its run; its card is READY again. */
  lemma RecordAndOutlive(cfg: Config, g: Guards, s: State, t: TaskId, p: Pid) returns (s': State)
    requires HasRun(s, t) && Reserved(s.cards[t]) && s.cards[t].spawned == Some(p)
    ensures Leads(cfg, g, s, s')
    ensures s'.stages == s.stages && s'.locks == s.locks && s'.procs == s.procs
    ensures t in s'.cards && Claimable(s'.cards[t])
  {
    hide Leads;
    var k := s.cards[t].run;
    var mid := s.(cards := s.cards[t := s.cards[t].(pid := Some(p))], runs := s.runs[k := s.runs[k].(pid := Some(p))]);
    LeadsOne(cfg, g, s, mid, RecordPid(t));
    s' := mid.(cards := mid.cards[t := mid.cards[t].(status := "ready", pid := None)],
               runs := mid.runs[k := mid.runs[k].(ended := true)]);
    LeadsOne(cfg, g, mid, s', Complete(t, "ready"));
    LeadsOn(cfg, g, s, mid, s');
  }

  /** Whenever the reap check lets a claim go on although its card is a
      reservation, not yet spawned or with a live process, a free counted slot is
      enough for a second worker, however many boards there are. */
  lemma ReservationPassesTheReap(cfg: Config, s: State, d: Dispatcher, verify: Verifier, seen: set<Slot>, p: Pid, q: Pid)
    returns (s': State)
    requires StageOf(s, d).Scanning? && StageOf(s, d).scanned == {} && StageOf(s, d).slots == {}
    requires HasRun(s, StageOf(s, d).task) && !NoReservation(s, StageOf(s, d).task)
    requires s.cards[StageOf(s, d).task].spawned == Some(p) || (s.cards[StageOf(s, d).task].spawned.None? && p !in s.procs)
    requires p != q && q !in s.procs
    requires Honest(s.procs, verify) && Shows(cfg, s, StageOf(s, d).resource, verify, seen)
    requires |seen| < cfg.capacity(StageOf(s, d).resource)
    ensures Leads(cfg, Guards(false, true), s, s')
    ensures WorkerOf(s', p, StageOf(s, d).task) && WorkerOf(s', q, StageOf(s, d).task)
  {
    hide Leads, Shows, SlotsOn;
    var g, t := Guards(false, true), StageOf(s, d).task;
    var scanned := ScanAll(cfg, g, s, d, verify, seen);
    SubsetCardinality(StageOf(scanned, d).slots, seen);
    var live := scanned;
    if s.cards[t].spawned.None? {
      live := SpawnedState(scanned, t, p);
      SpawnOne(cfg, g, scanned, t, p);
    } else {
      LeadsHere(cfg, g, scanned);
    }
    LeadsOn(cfg, g, s, scanned, live);
    var ready := RecordAndOutlive(cfg, g, live, t, p);
    LeadsOn(cfg, g, s, live, ready);
    assert StageOf(ready, d) == StageOf(scanned, d);
    var claimed := ClaimCounted(cfg, g, ready, d);
    LeadsOn(cfg, g, s, ready, claimed);
    SpawnOne(cfg, g, claimed, t, q);
    s' := SpawnedState(claimed, t, q);
    LeadsOn(cfg, g, s, claimed, s');
  }

  /** Two runs of one gated card meet from every quiet start with two free slots:
      one dispatcher claims, another takes the lock next and looks for the worker
      that is not there yet. */
  lemma RivalsStartTwoWorkers(cfg: Config, s: State, d: Dispatcher, rival: Dispatcher, t: TaskId, r: Resource,
                              verify: Verifier, seen: set<Slot>, p: Pid, q: Pid)
    returns (s': State)
    requires Start(cfg, s) && MayTry(cfg, s, d, t, r) && Claimable(s.cards[t]) && d != rival
    requires Honest(s.procs, verify) && Shows(cfg, s, r, verify, seen) && |seen| + 1 < cfg.capacity(r)
    requires p != q && p !in s.procs && q !in s.procs
    ensures Leads(cfg, Guards(false, true), s, s')
    ensures WorkerOf(s', p, t) && WorkerOf(s', q, t)
  {
    hide Leads, SlotsOn, PolicyFor, NewestPid;
    var g := Guards(false, true);
    var first := GatedClaim(cfg, g, s, d, t, r, verify, seen);
    var more := seen + {Reservation(t)};
    ClaimedShows(cfg, s, first, t, r, verify, seen);
    assert StageOf(s, rival).Idle? && StageOf(first, rival).Idle?;
    assert MayTry(cfg, first, rival, t, r) by {
      NewestAppend(s.runs, t, Run(s.cards[t].board, t, s.cards[t].assignee, None, false));
    }
    var second := LockAndReap(cfg, g, first, rival, t, r, verify);
    LeadsOn(cfg, g, s, first, second);
    assert Shows(cfg, second, r, verify, more);
    s' := ReservationPassesTheReap(cfg, second, rival, verify, more, p, q);
    LeadsOn(cfg, g, s, second, s');
  }

  /** After a claim the boards show its reservation and nothing else new. */
  lemma ClaimedShows(cfg: Config, s: State, s': State, t: TaskId, r: Resource, verify: Verifier, seen: set<Slot>)
    requires t in s.cards && s'.cards == Claimed(s, t).cards && s'.runs == Claimed(s, t).runs && s'.procs == s.procs
    requires Shows(cfg, s, r, verify, seen)
    ensures Shows(cfg, s', r, verify, seen + {Reservation(t)})
  {
    hide Matches;
    forall b | b in cfg.boards ensures SlotsOn(cfg, r, b, s'.cards, s'.runs, s'.procs, verify) <= seen + {Reservation(t)} {
      ClaimedRunSlots(cfg, s, s', t, r, b, verify);
      ClaimedCardSlots(cfg, s, s', t, r, b);
    }
  }

  lemma ClaimedRunSlots(cfg: Config, s: State, s': State, t: TaskId, r: Resource, b: BoardId, verify: Verifier)
    requires t in s.cards && s'.cards == Claimed(s, t).cards && s'.runs == Claimed(s, t).runs && s'.procs == s.procs
    ensures RunSlots(cfg, r, b, s'.cards, s'.runs, s'.procs, verify) <= RunSlots(cfg, r, b, s.cards, s.runs, s.procs, verify)
  {
    hide Matches;
    assert forall run :: run in s'.runs && run.pid.Some? ==> run in s.runs;
    assert forall run :: RunName(s'.cards, run) == RunName(s.cards, run);
  }

  lemma ClaimedCardSlots(cfg: Config, s: State, s': State, t: TaskId, r: Resource, b: BoardId)
    requires t in s.cards && s'.cards == Claimed(s, t).cards && s'.procs == s.procs
    ensures CardSlots(cfg, r, b, s'.cards, s'.cards.Keys, s'.procs)
            <= CardSlots(cfg, r, b, s.cards, s.cards.Keys, s.procs) + {Reservation(t)}
  {
    hide Matches;
    forall id | id in s'.cards && OccupyingCard(cfg, r, b, s'.cards, s'.procs, id)
      ensures CardSlot(id, s'.cards[id]) in CardSlots(cfg, r, b, s.cards, s.cards.Keys, s.procs) + {Reservation(t)}
    {
      if id != t {
        assert s'.cards[id] == s.cards[id] && OccupyingCard(cfg, r, b, s.cards, s.procs, id);
      }
    }
  }

  // ------------------------------------------------------------------ an early end

  /** Two identity checks judge the processes of a table alike. */
  ghost predicate Agree(procs: map<Pid, Process>, verify: Verifier, after: Verifier) {
    forall x: Pid, u: TaskId :: x in procs ==> after(x, u) == verify(x, u)
  }

  lemma AgreeAt(procs: map<Pid, Process>, verify: Verifier, after: Verifier, x: Pid, u: TaskId)
    requires Agree(procs, verify, after) && x in procs
    ensures after(x, u) == verify(x, u)
  {}

  /** No row mentions the process. */
  ghost predicate Unmentioned(s: State, p: Pid) {
    && p !in s.procs
    && (forall run :: run in s.runs ==> run.pid != Some(p))
    && (forall id :: id in s.cards ==> s.cards[id].pid != Some(p))
  }

  /** Once the run of an unrecorded live worker has ended, a free counted slot is
      enough for a second worker; and the resource then holds one slot more than
      when the run ended, so it exceeds a capacity that was exhausted. */
  lemma EarlyEndAdmitsSecond(cfg: Config, s: State, ended: State, d: Dispatcher, t: TaskId, r: Resource, status: string,
                             verify: Verifier, seen: set<Slot>, p: Pid, q: Pid)
    returns (s': State)
    requires EarlyEndStep(s, ended, t, status) && s.cards[t].spawned == Some(p) && WorkerOf(s, p, t)
    requires MayTry(cfg, ended, d, t, r) && Honest(ended.procs, verify) && q !in ended.procs
    requires Shows(cfg, ended, r, verify, seen) && |seen| < cfg.capacity(r)
    ensures Leads(cfg, Guards(true, false), s, s')
    ensures WorkerOf(s', p, t) && WorkerOf(s', q, t)
    ensures |Occupied(cfg, s', r)| == |Occupied(cfg, s, r)| + 1
    ensures |Occupied(cfg, s, r)| >= cfg.capacity(r) ==> |Occupied(cfg, s', r)| > cfg.capacity(r)
  {
    hide Leads, SlotsOn, PolicyFor, NewestPid, Occupied, Matches;
    var g := Guards(true, false);
    LeadsOne(cfg, g, s, ended, EarlyEnd(t, status));
    var ready := ended.(cards := ended.cards[t := ended.cards[t].(status := "ready")]);
    LeadsOne(cfg, g, ended, ready, Requeue(t, "ready"));
    LeadsOn(cfg, g, s, ended, ready);
    ReadyShows(cfg, ended, ready, t, r, verify, seen);
    var claimed := GatedClaim(cfg, g, ready, d, t, r, verify, seen);
    LeadsOn(cfg, g, s, ready, claimed);
    SpawnOne(cfg, g, claimed, t, q);
    s' := SpawnedState(claimed, t, q);
    LeadsOn(cfg, g, s, claimed, s');
    EarlyEndCount(cfg, s, ended, t, status, r);
    NewClaimOccupied(cfg, ended, s', t, r, q);
  }

  /** A row that is not running shows nothing, whatever else its status is. */
  lemma ReadyShows(cfg: Config, ended: State, ready: State, t: TaskId, r: Resource, verify: Verifier, seen: set<Slot>)
    requires t in ended.cards && ended.cards[t].status != "running"
    requires ready == ended.(cards := ended.cards[t := ended.cards[t].(status := "ready")])
    requires Shows(cfg, ended, r, verify, seen)
    ensures Shows(cfg, ready, r, verify, seen)
  {
    hide Matches;
    forall b | b in cfg.boards ensures SlotsOn(cfg, r, b, ready.cards, ready.runs, ready.procs, verify) <= seen {
      assert forall run :: RunName(ready.cards, run) == RunName(ended.cards, run);
      assert forall run :: OccupyingRun(cfg, r, b, ready.cards, ready.procs, verify, run)
                           ==> OccupyingRun(cfg, r, b, ended.cards, ended.procs, verify, run);
      forall id | id in ready.cards && OccupyingCard(cfg, r, b, ready.cards, ready.procs, id)
        ensures CardSlot(id, ready.cards[id]) in CardSlots(cfg, r, b, ended.cards, ended.cards.Keys, ended.procs)
      {
        assert id != t && ready.cards[id] == ended.cards[id];
        assert OccupyingCard(cfg, r, b, ended.cards, ended.procs, id);
      }
    }
  }

  /** A spawned claim is one slot more, beside any worker that was forgotten. */
  lemma NewClaimOccupied(cfg: Config, s: State, s': State, t: TaskId, r: Resource, q: Pid)
    requires t in s.cards && s.cards[t].status != "running" && q !in s.procs
    requires PolicyFor(cfg, s.cards[t].assignee) == Gated(r)
    requires s'.cards.Keys == s.cards.Keys && s'.procs == s.procs[q := HermesWorker(t)]
    requires forall u :: u in s.cards && u != t ==> s'.cards[u] == s.cards[u]
    requires s'.cards[t].assignee == s.cards[t].assignee && Reserved(s'.cards[t]) && s'.cards[t].spawned == Some(q)
    ensures |Occupied(cfg, s', r)| == |Occupied(cfg, s, r)| + 1
  {
    assert Matches(cfg, r, s.cards[t].assignee);
    hide Occupied, PolicyFor, Matches;
    forall slot ensures slot in Occupied(cfg, s', r) <==> slot in Occupied(cfg, s, r) || slot == Reservation(t) {
      NewClaimSlot(cfg, s, s', t, r, q, slot);
    }
    OccupiedSlot(cfg, s, r, Reservation(t));
    assert Occupied(cfg, s', r) == Occupied(cfg, s, r) + {Reservation(t)};
  }

  lemma NewClaimSlot(cfg: Config, s: State, s': State, t: TaskId, r: Resource, q: Pid, slot: Slot)
    requires t in s.cards && s.cards[t].status != "running" && q !in s.procs && Matches(cfg, r, s.cards[t].assignee)
    requires s'.cards.Keys == s.cards.Keys && s'.procs == s.procs[q := HermesWorker(t)]
    requires forall u :: u in s.cards && u != t ==> s'.cards[u] == s.cards[u]
    requires s'.cards[t].assignee == s.cards[t].assignee && Reserved(s'.cards[t]) && s'.cards[t].spawned == Some(q)
    ensures slot in Occupied(cfg, s', r) <==> slot in Occupied(cfg, s, r) || slot == Reservation(t)
  {
    OccupiedSlot(cfg, s', r, slot);
    OccupiedSlot(cfg, s, r, slot);
    hide Occupied, Matches;
  }

  /** From every start with one free slot, a run with one early end reaches two live
      workers of one gated card, and holds two slots more than it began with
      although only one was free: with a capacity that the first claim exhausts,
      the resource is overbooked. */
  lemma EarlyEndOverbooks(cfg: Config, s: State, d: Dispatcher, t: TaskId, r: Resource, verify: Verifier, after: Verifier,
                          seen: set<Slot>, p: Pid, q: Pid)
    returns (s': State)
    requires Start(cfg, s) && MayTry(cfg, s, d, t, r) && Claimable(s.cards[t])
    requires Honest(s.procs, verify) && Shows(cfg, s, r, verify, seen) && |seen| < cfg.capacity(r)
    requires Unmentioned(s, p) && p != q && q !in s.procs
    requires Honest(s.procs[p := HermesWorker(t)], after) && Agree(s.procs, verify, after)
    ensures Leads(cfg, Guards(true, false), s, s')
    ensures WorkerOf(s', p, t) && WorkerOf(s', q, t)
    ensures |Occupied(cfg, s', r)| == |Occupied(cfg, s, r)| + 2
    ensures |Occupied(cfg, s, r)| + 1 == cfg.capacity(r) ==> |Occupied(cfg, s', r)| > cfg.capacity(r)
  {
    hide Leads, SlotsOn, PolicyFor, NewestPid, Occupied, Matches;
    var g := Guards(true, false);
    var claimed := GatedClaim(cfg, g, s, d, t, r, verify, seen);
    SpawnOne(cfg, g, claimed, t, p);
    var live := SpawnedState(claimed, t, p);
    LeadsOn(cfg, g, s, claimed, live);
    var k := live.cards[t].run;
    var ended := live.(cards := live.cards[t := live.cards[t].(status := "ready")],
                       runs := live.runs[k := live.runs[k].(ended := true)]);
    assert EarlyEndStep(live, ended, t, "ready");
    assert MayTry(cfg, ended, d, t, r) by {
      NewestAppend(s.runs, t, Run(s.cards[t].board, t, s.cards[t].assignee, None, false));
      NewestUnmoved(live.runs, t, k, live.runs[k].(ended := true));
      NewestIsMentioned(s.runs, t);
    }
    ForgottenShows(cfg, s, ended, t, r, verify, after, seen, p);
    var end := EarlyEndAdmitsSecond(cfg, live, ended, d, t, r, "ready", after, seen, p, q);
    LeadsOn(cfg, g, s, live, end);
    s' := end;
    NewClaimOccupied(cfg, s, live, t, r, p);
  }

  lemma {:induction false} NewestIsMentioned(runs: seq<Run>, t: TaskId)
    ensures NewestPid(runs, t).Some? ==> exists run :: run in runs && run.pid == NewestPid(runs, t)
  {
    var run := NewestPidRun(runs, t);
    if run.Some? {
      assert run.value in runs;
    }
  }

  /** After the early end the boards show what they showed before the first claim. */
  lemma ForgottenShows(cfg: Config, s: State, ended: State, t: TaskId, r: Resource, verify: Verifier, after: Verifier, seen: set<Slot>, p: Pid)
    requires t in s.cards && Claimable(s.cards[t]) && Unmentioned(s, p)
    requires t in ended.cards && ended.cards == s.cards[t := ended.cards[t]] && ended.procs == s.procs[p := HermesWorker(t)]
    requires ended.cards[t].status != "running" && ended.cards[t].assignee == s.cards[t].assignee
    requires |ended.runs| == |s.runs| + 1 && ended.runs[..|s.runs|] == s.runs && ended.runs[|s.runs|].pid.None?
    requires Agree(s.procs, verify, after)
    requires Shows(cfg, s, r, verify, seen)
    ensures Shows(cfg, ended, r, after, seen)
  {
    hide Matches;
    assert ended.runs == s.runs + [ended.runs[|s.runs|]];
    forall b | b in cfg.boards ensures SlotsOn(cfg, r, b, ended.cards, ended.runs, ended.procs, after) <= seen {
      assert forall run :: RunName(ended.cards, run) == RunName(s.cards, run);
      forall run | run in ended.runs && OccupyingRun(cfg, r, b, ended.cards, ended.procs, after, run)
        ensures run in s.runs && OccupyingRun(cfg, r, b, s.cards, s.procs, verify, run)
      {
        assert run in s.runs && run.pid.value in s.procs;
        AgreeAt(s.procs, verify, after, run.pid.value, run.taskId);
        assert RunName(ended.cards, run) == RunName(s.cards, run);
      }
      forall id | id in ended.cards && OccupyingCard(cfg, r, b, ended.cards, ended.procs, id)
        ensures CardSlot(id, ended.cards[id]) in CardSlots(cfg, r, b, s.cards, s.cards.Keys, s.procs)
      {
        assert id != t && ended.cards[id] == s.cards[id];
        assert OccupyingCard(cfg, r, b, s.cards, s.procs, id);
      }
    }
  }
}
