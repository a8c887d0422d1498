/** At most one live worker process per gated task, although each claim looks
    only at the newest recorded one. */
module SingleWorker {
  import opened Prelude
  import opened ResourceAdmission
  import opened AdmissionProtocol
  import opened AdmissionTheorems

  predicate GatedTask(cfg: Config, s: State, t: TaskId) {
    t in s.cards && PolicyFor(cfg, s.cards[t].assignee).Gated?
  }

  function NewestPid(runs: seq<Run>, t: TaskId): (pid: Option<Pid>) {
    var run := NewestPidRun(runs, t);
    if run.None? then None else run.value.pid
  }

  /** The run a card points to is the newest run of its task. */
  ghost predicate PointsToNewest(s: State) {
    forall t, i :: t in s.cards && s.cards[t].run < i < |s.runs| ==> s.runs[i].taskId != t
  }

  /** The live worker of a gated task is the process its latest claim started,
      and once recorded it is the newest one on record. */
  ghost predicate Owned(s: State, t: TaskId)
    requires t in s.cards
  {
    forall p :: WorkerOf(s, p, t) ==>
      s.cards[t].spawned == Some(p) && (!Reserved(s.cards[t]) ==> NewestPid(s.runs, t) == Some(p))
  }

  /** While a claim of `t` is being counted, nothing of `t` is alive, and no
      reservation can still start something. */
  ghost predicate Quiet(s: State, t: TaskId)
    requires t in s.cards
  {
    Spent(s.cards[t]) && forall p :: !WorkerOf(s, p, t)
  }

  /** Not a reservation, or one that has already started its process. */
  predicate Spent(card: Card) {
    Reserved(card) ==> card.spawned.Some?
  }

  ghost predicate OwnInv(cfg: Config, s: State) {
    && PointsToNewest(s)
    && (forall t :: GatedTask(cfg, s, t) ==> Owned(s, t))
    && (forall d :: StageOf(s, d).Scanning? && StageOf(s, d).task in s.cards ==> Quiet(s, StageOf(s, d).task))
  }

  /** The guard that a claim does not have: when the reap check lets it go on, its
      card is not a reservation, unless the process of that one is gone already. */
  ghost predicate ReapsBetweenClaims(next: State, step: Step) {
    step.Quiesce? && StageOf(next, step.d).Scanning? && StageOf(next, step.d).task in next.cards ==>
      NoReservation(next, StageOf(next, step.d).task)
  }

  ghost predicate NoReservation(s: State, t: TaskId)
    requires t in s.cards
  {
    Reserved(s.cards[t]) ==> s.cards[t].spawned.Some? && !WorkerOf(s, s.cards[t].spawned.value, t)
  }

  lemma {:induction false} NewestIsLast(runs: seq<Run>, t: TaskId, k: nat)
    requires k < |runs| && runs[k].taskId == t && runs[k].pid.Some?
    requires forall i :: k < i < |runs| ==> runs[i].taskId != t
    ensures NewestPid(runs, t) == runs[k].pid
  {
    if k < |runs| - 1 {
      NewestIsLast(runs[..|runs| - 1], t, k);
    }
  }

  lemma {:induction false} NewestUnmoved(runs: seq<Run>, t: TaskId, k: nat, run: Run)
    requires k < |runs| && run.taskId == runs[k].taskId
    requires run.taskId != t || run.pid == runs[k].pid
    ensures NewestPid(runs[k := run], t) == NewestPid(runs, t)
  {
    var n := |runs| - 1;
    if k < n {
      NewestUnmoved(runs[..n], t, k, run);
      assert runs[k := run][..n] == runs[..n][k := run];
    } else {
      assert runs[k := run][..n] == runs[..n];
    }
  }

  lemma NewestAppend(runs: seq<Run>, t: TaskId, run: Run)
    requires run.pid.None?
    ensures NewestPid(runs + [run], t) == NewestPid(runs, t)
  {
    assert (runs + [run])[..|runs|] == runs;
  }

  /** A step of `task`'s row that starts no process and leaves records alone. */
  lemma CardStepKeeps(cfg: Config, s: State, s': State, task: TaskId)
    requires OwnInv(cfg, s) && OneCard(s, s', task) && PointsToNewest(s')
    requires forall t :: NewestPid(s'.runs, t) == NewestPid(s.runs, t)
    requires forall d :: StageOf(s', d).Scanning? ==> StageOf(s', d) == StageOf(s, d) && StageOf(s, d).task in s.cards
    requires Reserved(s'.cards[task]) && !Reserved(s.cards[task]) ==>
               && (!GatedTask(cfg, s, task) || forall p :: !WorkerOf(s, p, task))
               && (forall d :: StageOf(s', d).Scanning? ==> StageOf(s', d).task != task)
    requires Reserved(s'.cards[task]) && Reserved(s.cards[task]) ==> s'.cards[task].spawned == s.cards[task].spawned
    requires (exists d :: StageOf(s', d).Scanning? && StageOf(s', d).task == task) ==> Spent(s'.cards[task])
    requires GatedTask(cfg, s, task) ==> forall p :: WorkerOf(s, p, task) ==>
               && s'.cards[task].spawned == s.cards[task].spawned
               && (Reserved(s.cards[task]) ==> Reserved(s'.cards[task]))
    ensures OwnInv(cfg, s')
  {
    hide NewestPid, PolicyFor;
    forall t | GatedTask(cfg, s', t) ensures Owned(s', t) {
      assert GatedTask(cfg, s, t);
      assert Owned(s, t);
      forall p | WorkerOf(s', p, t)
        ensures s'.cards[t].spawned == Some(p) && (!Reserved(s'.cards[t]) ==> NewestPid(s'.runs, t) == Some(p))
      {
        assert WorkerOf(s, p, t);
      }
    }
    forall d | StageOf(s', d).Scanning? && StageOf(s', d).task in s'.cards ensures Quiet(s', StageOf(s', d).task) {
      assert Quiet(s, StageOf(s, d).task);
      forall p ensures !WorkerOf(s', p, StageOf(s', d).task) {
        assert !WorkerOf(s, p, StageOf(s, d).task);
      }
    }
  }

  /** Steps that only lock, count, or end processes. */
  lemma CalmOwned(cfg: Config, s: State, s': State)
    requires OwnInv(cfg, s) && Calm(s, s')
    requires forall d :: StageOf(s', d).Scanning? && StageOf(s', d).task in s'.cards ==>
               Quiet(s', StageOf(s', d).task) || (StageOf(s, d).Scanning? && StageOf(s', d).task == StageOf(s, d).task)
    ensures OwnInv(cfg, s')
  {
    hide NewestPid, PolicyFor;
    forall t | GatedTask(cfg, s', t) ensures Owned(s', t) {
      assert GatedTask(cfg, s, t);
      assert Owned(s, t);
    }
    forall d | StageOf(s', d).Scanning? && StageOf(s', d).task in s'.cards ensures Quiet(s', StageOf(s', d).task) {
      if StageOf(s, d).Scanning? && StageOf(s', d).task == StageOf(s, d).task {
        assert Quiet(s, StageOf(s, d).task);
      }
    }
  }

  /** The reap check empties the task: its only live worker is the newest on record. */
  lemma QuiesceOwned(cfg: Config, s: State, s': State, d: Dispatcher, verify: Verifier, reaped: bool)
    requires OwnInv(cfg, s) && StageInv(cfg, s) && QuiesceStep(cfg, s, s', d, verify, reaped)
    requires ReapsBetweenClaims(s', Quiesce(d, verify, reaped))
    ensures OwnInv(cfg, s')
  {
    hide PolicyFor, NewestPidRun;
    var t := StageOf(s, d).task;
    assert !StageOf(s, d).Idle?;
    assert Owned(s, t) by { assert GatedTask(cfg, s, t); }
    if StageOf(s', d).Scanning? {
      assert forall p :: WorkerOf(s, p, t) ==> s.cards[t].spawned == Some(p);
      if !Reserved(s.cards[t]) {
        assert forall p :: WorkerOf(s, p, t) ==> NewestPid(s.runs, t) == Some(p) && verify(p, t) != NotMine;
      }
      assert forall p :: WorkerOf(s', p, t) ==> WorkerOf(s, p, t);
      assert Quiet(s', t);
    }
    CalmOwned(cfg, s, s');
  }

  lemma ClaimOwned(cfg: Config, s: State, s': State, d: Dispatcher)
    requires OwnInv(cfg, s) && StageInv(cfg, s) && LockInv(s) && ClaimStep(cfg, s, s', d)
    ensures OwnInv(cfg, s')
  {
    hide PolicyFor, NewestPid;
    var t := StageOf(s, d).task;
    assert s.locks[StageOf(s, d).resource] == d;
    assert Quiet(s, t);
    forall u ensures NewestPid(s'.runs, u) == NewestPid(s.runs, u) {
      NewestAppend(s.runs, u, Run(s.cards[t].board, t, s.cards[t].assignee, None, false));
    }
    forall c | StageOf(s', c).Scanning?
      ensures StageOf(s', c) == StageOf(s, c) && StageOf(s, c).task in s.cards && StageOf(s, c).task != t
    {
      assert !StageOf(s, c).Idle?;
      assert s.locks[StageOf(s, c).resource] == c;
    }
    CardStepKeeps(cfg, s, s', t);
  }

  lemma UngatedOwned(cfg: Config, s: State, s': State, t: TaskId)
    requires OwnInv(cfg, s) && StageInv(cfg, s) && UngatedStep(cfg, s, s', t)
    ensures OwnInv(cfg, s')
  {
    hide PolicyFor, NewestPid;
    forall u ensures NewestPid(s'.runs, u) == NewestPid(s.runs, u) {
      NewestAppend(s.runs, u, Run(s.cards[t].board, t, s.cards[t].assignee, None, false));
    }
    forall c | StageOf(s', c).Scanning?
      ensures StageOf(s', c) == StageOf(s, c) && StageOf(s, c).task in s.cards && StageOf(s, c).task != t
    {
      assert !StageOf(s, c).Idle?;
    }
    CardStepKeeps(cfg, s, s', t);
  }

  lemma CompleteOwned(cfg: Config, s: State, s': State, t: TaskId, status: string)
    requires OwnInv(cfg, s) && StageInv(cfg, s) && CompleteStep(s, s', t, status)
    ensures OwnInv(cfg, s')
  {
    hide PolicyFor, NewestPid;
    var k := s.cards[t].run;
    forall u ensures NewestPid(s'.runs, u) == NewestPid(s.runs, u) {
      NewestUnmoved(s.runs, u, k, s.runs[k].(ended := true));
    }
    assert forall c :: StageOf(s', c).Scanning? ==> !StageOf(s, c).Idle?;
    if GatedTask(cfg, s, t) {
      assert Owned(s, t);
    }
    CardStepKeeps(cfg, s, s', t);
  }

  lemma EarlyEndOwned(cfg: Config, s: State, s': State, t: TaskId, status: string)
    requires OwnInv(cfg, s) && StageInv(cfg, s) && EarlyEndStep(s, s', t, status) && EndsOnRecord(cfg, s, EarlyEnd(t, status))
    ensures OwnInv(cfg, s')
  {
    hide PolicyFor, NewestPid;
    var k := s.cards[t].run;
    forall u ensures NewestPid(s'.runs, u) == NewestPid(s.runs, u) {
      NewestUnmoved(s.runs, u, k, s.runs[k].(ended := true));
    }
    assert forall c :: StageOf(s', c).Scanning? ==> !StageOf(s, c).Idle?;
    if GatedTask(cfg, s, t) {
      assert Owned(s, t) && Grouped(cfg, s, t);
    }
    CardStepKeeps(cfg, s, s', t);
  }

  lemma RequeueOwned(cfg: Config, s: State, s': State, t: TaskId, status: string)
    requires OwnInv(cfg, s) && StageInv(cfg, s) && RequeueStep(s, s', t, status)
    ensures OwnInv(cfg, s')
  {
    hide PolicyFor, NewestPid;
    assert forall c :: StageOf(s', c).Scanning? ==> !StageOf(s, c).Idle?;
    CardStepKeeps(cfg, s, s', t);
  }

  lemma SpawnOwned(cfg: Config, s: State, s': State, t: TaskId, pid: Pid)
    requires OwnInv(cfg, s) && StageInv(cfg, s) && SpawnStep(s, s', t, pid)
    ensures OwnInv(cfg, s')
  {
    hide PolicyFor, NewestPid;
    forall u | GatedTask(cfg, s', u) ensures Owned(s', u) {
      assert GatedTask(cfg, s, u);
      assert Owned(s, u);
      forall p | WorkerOf(s', p, u)
        ensures s'.cards[u].spawned == Some(p) && (!Reserved(s'.cards[u]) ==> NewestPid(s'.runs, u) == Some(p))
      {
        if p != pid { assert WorkerOf(s, p, u); }
      }
    }
    forall d | StageOf(s', d).Scanning? && StageOf(s', d).task in s'.cards ensures Quiet(s', StageOf(s', d).task) {
      assert Quiet(s, StageOf(s, d).task);
      forall p ensures !WorkerOf(s', p, StageOf(s', d).task) {
        assert !WorkerOf(s, p, StageOf(s, d).task);
      }
    }
  }

  lemma RecordOwned(cfg: Config, s: State, s': State, t: TaskId)
    requires OwnInv(cfg, s) && StageInv(cfg, s) && RecordStep(s, s', t)
    ensures OwnInv(cfg, s')
  {
    hide PolicyFor, NewestPid;
    var k := s.cards[t].run;
    var run := s.runs[k].(pid := s.cards[t].spawned);
    forall u | GatedTask(cfg, s', u) ensures Owned(s', u) {
      assert GatedTask(cfg, s, u);
      assert Owned(s, u);
      if u == t {
        NewestIsLast(s'.runs, t, k);
      } else {
        NewestUnmoved(s.runs, u, k, run);
      }
      forall p | WorkerOf(s', p, u)
        ensures s'.cards[u].spawned == Some(p) && (!Reserved(s'.cards[u]) ==> NewestPid(s'.runs, u) == Some(p))
      {
        assert WorkerOf(s, p, u);
      }
    }
    forall d | StageOf(s', d).Scanning? && StageOf(s', d).task in s'.cards ensures Quiet(s', StageOf(s', d).task) {
      assert Quiet(s, StageOf(s, d).task);
      forall p ensures !WorkerOf(s', p, StageOf(s', d).task) {
        assert !WorkerOf(s, p, StageOf(s, d).task);
      }
    }
  }

  lemma NextOwned(cfg: Config, s: State, s': State, step: Step)
    requires OwnInv(cfg, s) && StageInv(cfg, s) && LockInv(s)
    requires Next(cfg, s, s', step) && ReapsBetweenClaims(s', step) && EndsOnRecord(cfg, s, step)
    ensures OwnInv(cfg, s')
  {
    hide OwnInv, NewestPidRun, SlotsOn, PolicyFor;
    match step
    case TryLock(d, task) => CalmOwned(cfg, s, s');
    case Quiesce(d, verify, reaped) => QuiesceOwned(cfg, s, s', d, verify, reaped);
    case ScanNext(d, board, verify) => CalmOwned(cfg, s, s');
    case Claim(d) => ClaimOwned(cfg, s, s', d);
    case Leave(d) => CalmOwned(cfg, s, s');
    case ClaimUngated(task) => UngatedOwned(cfg, s, s', task);
    case Spawn(task, pid) => SpawnOwned(cfg, s, s', task, pid);
    case RecordPid(task) => RecordOwned(cfg, s, s', task);
    case Complete(task, status) => CompleteOwned(cfg, s, s', task, status);
    case EarlyEnd(task, status) => EarlyEndOwned(cfg, s, s', task, status);
    case Requeue(task, status) => RequeueOwned(cfg, s, s', task, status);
    case Exit(pid) => CalmOwned(cfg, s, s');
    case StartOther(pid) => CalmOwned(cfg, s, s');
  }

  lemma LocksHold(cfg: Config, s: State, bound: Resource -> nat)
    requires Inv(cfg, s, bound)
    ensures LockInv(s) && StageInv(cfg, s)
  {}

  ghost predicate AllReapBetween(states: seq<State>, steps: seq<Step>, n: nat)
    requires n <= |steps| < |states|
  {
    forall k :: 0 <= k < n ==> ReapsBetweenClaims(states[k + 1], steps[k])
  }

  lemma {:induction false} OwnedThroughout(cfg: Config, states: seq<State>, steps: seq<Step>, i: nat)
    requires IsRun(cfg, states, steps) && OwnInv(cfg, states[0]) && i < |states|
    requires AllEndOnRecord(cfg, states, steps, i) && AllReapBetween(states, steps, i)
    ensures OwnInv(cfg, states[i])
  {
    hide OwnInv, Next, Start, ReapsBetweenClaims, EndsOnRecord, Inv, StageInv, LockInv;
    if i > 0 {
      OwnedThroughout(cfg, states, steps, i - 1);
      InvThroughout(cfg, states, steps, i - 1);
      LocksHold(cfg, states[i - 1], StartBound(cfg, states[0]));
      NextOwned(cfg, states[i - 1], states[i], steps[i - 1]);
    }
  }

  /** Under both guards, two live workers of one gated task are the same process. */
  lemma AtMostOneWorker(cfg: Config, states: seq<State>, steps: seq<Step>, i: nat, t: TaskId, p: Pid, q: Pid)
    requires IsRun(cfg, states, steps) && OwnInv(cfg, states[0]) && i < |states|
    requires AllEndOnRecord(cfg, states, steps, i) && AllReapBetween(states, steps, i)
    requires GatedTask(cfg, states[i], t) && WorkerOf(states[i], p, t) && WorkerOf(states[i], q, t)
    ensures p == q
  {
    hide IsRun, PolicyFor, NewestPid, AllReapBetween, AllEndOnRecord;
    OwnedThroughout(cfg, states, steps, i);
    assert Owned(states[i], t);
  }

  /** Why a board has to be read in one look: run rows read before the worker is
      recorded, and card rows read after its run ended, both miss it. */
  lemma TwoReadsMissAWorker(cfg: Config, s: State, s1: State, s2: State, t: TaskId, p: Pid, status: string,
                            r: Resource, board: BoardId, verify: Verifier)
    requires Next(cfg, s, s1, RecordPid(t)) && Next(cfg, s1, s2, Complete(t, status))
    requires InFlight(s, t, p) && WorkerOf(s, p, t) && Matches(cfg, r, s.cards[t].assignee)
    requires forall i :: 0 <= i < |s.runs| ==> s.runs[i].pid != Some(p)
    requires forall u :: u in s.cards && u != t ==> s.cards[u].pid != Some(p)
    ensures Worker(p) in Occupied(cfg, s1, r) && Worker(p) in Occupied(cfg, s2, r)
    ensures var seen := RunSlots(cfg, r, board, s.cards, s.runs, s.procs, verify)
                        + CardSlots(cfg, r, board, s2.cards, s2.cards.Keys, s2.procs);
            Worker(p) !in seen && Reservation(t) !in seen
  {
    OccupiedSlot(cfg, s1, r, Worker(p));
    OccupiedSlot(cfg, s2, r, Worker(p));
  }
}
