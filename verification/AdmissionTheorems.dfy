/** What holds over whole runs of the admission protocol. */
module AdmissionTheorems {
  import opened Prelude
  import opened ResourceAdmission
  import opened AdmissionProtocol

  /** No claim is under way; workers are on record or in flight. */
  ghost predicate Start(cfg: Config, s: State) {
    && (forall d :: StageOf(s, d).Idle?)
    && HistoryInv(cfg, s) && BoardsInv(cfg, s)
  }

  ghost predicate IsRun(cfg: Config, states: seq<State>, steps: seq<Step>) {
    && |states| == |steps| + 1
    && Start(cfg, states[0])
    && forall i :: 0 <= i < |steps| ==> Next(cfg, states[i], states[i + 1], steps[i])
  }

  lemma NextKeeps(cfg: Config, s: State, s': State, step: Step, bound: Resource -> nat)
    requires Inv(cfg, s, bound) && Next(cfg, s, s', step) && EndsOnRecord(cfg, s, step)
    requires forall r :: cfg.capacity(r) <= bound(r)
    ensures Inv(cfg, s', bound)
  {
    hide Inv, LockStep, QuiesceStep, ScanStep, ClaimStep, LeaveStep, UngatedStep, SpawnStep, RecordStep, CompleteStep, EarlyEndStep, EndsOnRecord, RequeueStep;
    match step
    case TryLock(d, task) => LockKeeps(cfg, s, s', d, task, bound);
    case Quiesce(d, verify, reaped) => QuiesceKeeps(cfg, s, s', d, verify, reaped, bound);
    case ScanNext(d, board, verify) => ScanKeeps(cfg, s, s', d, board, verify, bound);
    case Claim(d) => ClaimKeeps(cfg, s, s', d, bound);
    case Leave(d) => LeaveKeeps(cfg, s, s', d, bound);
    case ClaimUngated(task) => UngatedKeeps(cfg, s, s', task, bound);
    case Spawn(task, pid) => SpawnKeeps(cfg, s, s', task, pid, bound);
    case RecordPid(task) => RecordKeeps(cfg, s, s', task, bound);
    case Complete(task, status) => CompleteKeeps(cfg, s, s', task, status, bound);
    case EarlyEnd(task, status) => EarlyEndKeeps(cfg, s, s', task, status, bound);
    case Requeue(task, status) => RequeueKeeps(cfg, s, s', task, status, bound);
    case Exit(pid) => ProcessKeeps(cfg, s, s', bound);
    case StartOther(pid) => ProcessKeeps(cfg, s, s', bound);
  }

  /** No run up to step `n` ends early while its worker of a grouped card lives. */
  ghost predicate AllEndOnRecord(cfg: Config, states: seq<State>, steps: seq<Step>, n: nat)
    requires n <= |steps| < |states|
  {
    forall k :: 0 <= k < n ==> EndsOnRecord(cfg, states[k], steps[k])
  }

  /** A resource never holds more than its capacity, or than it held at the start. */
  function StartBound(cfg: Config, s: State): (bound: Resource -> nat)
    ensures forall r :: bound(r) == Max(cfg.capacity(r), |Occupied(cfg, s, r)|)
  {
    r => Max(cfg.capacity(r), |Occupied(cfg, s, r)|)
  }

  lemma StartHolds(cfg: Config, s: State)
    requires Start(cfg, s)
    ensures Inv(cfg, s, StartBound(cfg, s))
  {
    hide Occupied, HistoryInv, BoardsInv;
    assert forall d, slot :: StageOf(s, d).Scanning? && slot in Occupied(cfg, s, StageOf(s, d).resource)
                             && SlotOnBoard(s, slot, StageOf(s, d).scanned)
             ==> Counted(s, StageOf(s, d).slots, slot);
    forall r ensures |Occupied(cfg, s, r)| <= StartBound(cfg, s)(r) {
    }
  }

  lemma {:induction false} InvThroughout(cfg: Config, states: seq<State>, steps: seq<Step>, i: nat)
    requires IsRun(cfg, states, steps) && i < |states| && AllEndOnRecord(cfg, states, steps, i)
    ensures Inv(cfg, states[i], StartBound(cfg, states[0]))
  {
    hide Occupied, HistoryInv, Next, EndsOnRecord;
    if i == 0 {
      StartHolds(cfg, states[0]);
    } else {
      InvThroughout(cfg, states, steps, i - 1);
      NextKeeps(cfg, states[i - 1], states[i], steps[i - 1], StartBound(cfg, states[0]));
    }
  }

  /** Every live worker process of the resource's tasks. */
  function LiveWorkers(cfg: Config, s: State, r: Resource): (pids: set<Pid>) {
    set p | p in s.procs && s.procs[p].HermesWorker? && s.procs[p].taskId in s.cards
            && Matches(cfg, r, s.cards[s.procs[p].taskId].assignee)
  }

  /** The slot that a live worker uses. */
  function SlotOf(s: State, p: Pid): (slot: Slot) {
    if p in s.procs && s.procs[p].HermesWorker? && InFlight(s, s.procs[p].taskId, p)
    then Reservation(s.procs[p].taskId) else Worker(p)
  }

  lemma WorkersHaveSlots(cfg: Config, s: State, r: Resource)
    ensures |LiveWorkers(cfg, s, r)| <= |Occupied(cfg, s, r)|
  {
    forall p | p in LiveWorkers(cfg, s, r) ensures SlotOf(s, p) in Occupied(cfg, s, r) {
      OccupiedSlot(cfg, s, r, SlotOf(s, p));
    }
    InjectionCardinality(LiveWorkers(cfg, s, r), Occupied(cfg, s, r), p => SlotOf(s, p));
  }

  /** Over every interleaving in which runs end on record, reservations plus live
      workers stay within the capacity, unless the run began above it; then they
      never rise above that. */
  lemma CapacityHolds(cfg: Config, states: seq<State>, steps: seq<Step>, r: Resource, i: nat)
    requires IsRun(cfg, states, steps) && i < |states| && AllEndOnRecord(cfg, states, steps, i)
    ensures |Occupied(cfg, states[i], r)| <= Max(cfg.capacity(r), |Occupied(cfg, states[0], r)|)
    ensures |LiveWorkers(cfg, states[i], r)| <= Max(cfg.capacity(r), |Occupied(cfg, states[0], r)|)
  {
    hide Occupied, IsRun, LiveWorkers, AllEndOnRecord;
    InvThroughout(cfg, states, steps, i);
    assert |Occupied(cfg, states[i], r)| <= StartBound(cfg, states[0])(r);
    WorkersHaveSlots(cfg, states[i], r);
  }

  /** Whatever the run began with, a step that takes a slot leaves the resource
      within its capacity. */
  lemma OnlyFittingClaimsRaise(cfg: Config, states: seq<State>, steps: seq<Step>, r: Resource, i: nat)
    requires IsRun(cfg, states, steps) && i < |steps| && AllEndOnRecord(cfg, states, steps, i)
    requires |Occupied(cfg, states[i], r)| < |Occupied(cfg, states[i + 1], r)|
    ensures steps[i].Claim?
    ensures |Occupied(cfg, states[i + 1], r)| <= cfg.capacity(r)
  {
    hide Occupied, Inv, Next, Start, AllEndOnRecord;
    InvThroughout(cfg, states, steps, i);
    if steps[i].Claim? {
      ClaimRaises(cfg, states[i], states[i + 1], steps[i], r, StartBound(cfg, states[0]));
    } else {
      OthersDoNotRaise(cfg, states[i], states[i + 1], steps[i], r, StartBound(cfg, states[0]));
    }
  }

  lemma ClaimRaises(cfg: Config, s: State, s': State, step: Step, r: Resource, bound: Resource -> nat)
    requires Inv(cfg, s, bound) && Next(cfg, s, s', step) && step.Claim?
    requires |Occupied(cfg, s, r)| < |Occupied(cfg, s', r)|
    ensures |Occupied(cfg, s', r)| <= cfg.capacity(r)
  {
    hide Occupied, ScanInv;
    ClaimOccupied(cfg, s, s', step.d, r);
    ClaimFits(cfg, s, s', step.d);
  }

  lemma SteadyCount(cfg: Config, s: State, s': State, r: Resource)
    requires Steady(cfg, s, s', r)
    ensures |Occupied(cfg, s', r)| <= |Occupied(cfg, s, r)|
  {
    hide Occupied;
    SubsetCardinality(Occupied(cfg, s', r), Occupied(cfg, s, r));
  }

  /** An early end trades the reservation for the worker, if that is alive. */
  lemma EarlyEndOccupied(cfg: Config, s: State, s': State, task: TaskId, status: string, r: Resource)
    requires EarlyEndStep(s, s', task, status)
    ensures var worker := Worker(s.cards[task].spawned.value);
            var freed := Occupied(cfg, s, r) - {Reservation(task)};
            && Occupied(cfg, s', r) == (if Reservation(task) in Occupied(cfg, s, r) && WorkerOf(s, worker.pid, task)
                                        then freed + {worker} else freed)
            && (WorkerOf(s, worker.pid, task) ==> worker !in Occupied(cfg, s, r))
  {
    var worker := Worker(s.cards[task].spawned.value);
    forall slot
      ensures slot in Occupied(cfg, s', r) <==>
              (slot in Occupied(cfg, s, r) && slot != Reservation(task))
              || (slot == worker && Reservation(task) in Occupied(cfg, s, r) && WorkerOf(s, worker.pid, task))
    {
      OccupiedSlot(cfg, s', r, slot);
      OccupiedSlot(cfg, s, r, slot);
      OccupiedSlot(cfg, s, r, Reservation(task));
    }
    OccupiedSlot(cfg, s, r, worker);
  }

  lemma EarlyEndCount(cfg: Config, s: State, s': State, task: TaskId, status: string, r: Resource)
    requires EarlyEndStep(s, s', task, status)
    ensures |Occupied(cfg, s', r)| <= |Occupied(cfg, s, r)|
    ensures WorkerOf(s, s.cards[task].spawned.value, task) ==> |Occupied(cfg, s', r)| == |Occupied(cfg, s, r)|
  {
    hide Occupied;
    EarlyEndOccupied(cfg, s, s', task, status, r);
    if Reservation(task) !in Occupied(cfg, s, r) {
      assert Occupied(cfg, s, r) - {Reservation(task)} == Occupied(cfg, s, r);
    }
  }

  lemma OthersDoNotRaise(cfg: Config, s: State, s': State, step: Step, r: Resource, bound: Resource -> nat)
    requires Inv(cfg, s, bound) && Next(cfg, s, s', step) && !step.Claim?
    ensures |Occupied(cfg, s', r)| <= |Occupied(cfg, s, r)|
  {
    hide Occupied, ScanInv, HistoryInv, BoundInv, StageInv, LockInv, BoardsInv, SlotsOn, NewestPidRun, Steady, LockStep, LeaveStep, QuiesceStep, ScanStep,
         RecordStep, SpawnStep, EarlyEndStep;
    match step
    case RecordPid(task) => RecordBound(cfg, s, s', task, r);
    case EarlyEnd(task, status) => EarlyEndCount(cfg, s, s', task, status, r);
    case Spawn(task, pid) =>
      SpawnSteady(cfg, s, s', task, pid, r);
      SteadyCount(cfg, s, s', r);
    case Complete(task, _) =>
      OneCardSteady(cfg, s, s', task, r);
      SteadyCount(cfg, s, s', r);
    case Requeue(task, _) =>
      OneCardSteady(cfg, s, s', task, r);
      SteadyCount(cfg, s, s', r);
    case ClaimUngated(task) =>
      OneCardSteady(cfg, s, s', task, r);
      SteadyCount(cfg, s, s', r);
    case _ =>
      CalmStep(cfg, s, s', step);
      CalmOccupied(cfg, s, s', r);
  }

  /** Locking, counting and dying change no table. */
  lemma CalmStep(cfg: Config, s: State, s': State, step: Step)
    requires Next(cfg, s, s', step)
    requires step.TryLock? || step.Quiesce? || step.ScanNext? || step.Leave? || step.Exit? || step.StartOther?
    ensures Calm(s, s')
  {
    hide SlotsOn, NewestPidRun, PolicyFor;
  }
}
