/** Dispatchers, spawns, worker exits and run completions, interleaved over all
    boards of one host.  One dispatcher at a time holds the lock of a resource,
    but its scan visits the boards one by one while everything else goes on. */
module AdmissionProtocol {
  import opened Prelude
  import opened ResourceAdmission

  type Dispatcher = nat

  /** How far a guarded claim has come. */
  datatype Stage =
    | Idle
    | Locked(task: TaskId, resource: Resource)
    | Scanning(task: TaskId, resource: Resource, scanned: set<BoardId>, slots: set<Slot>)

  datatype State = State(
    cards: map<TaskId, Card>,
    runs: seq<Run>,
    procs: map<Pid, Process>,
    locks: map<Resource, Dispatcher>,
    stages: map<Dispatcher, Stage>)

  datatype Step =
    | TryLock(d: Dispatcher, task: TaskId)
    | Quiesce(d: Dispatcher, verify: Verifier, reaped: bool)
    | ScanNext(d: Dispatcher, board: BoardId, verify: Verifier)
    | Claim(d: Dispatcher)
    | Leave(d: Dispatcher)
    | ClaimUngated(task: TaskId)
    | Spawn(task: TaskId, pid: Pid)
    | RecordPid(task: TaskId)
    | Complete(task: TaskId, status: string)
    | EarlyEnd(task: TaskId, status: string)
    | Requeue(task: TaskId, status: string)
    | Exit(pid: Pid)
    | StartOther(pid: Pid)

  function StageOf(s: State, d: Dispatcher): (stage: Stage) {
    if d in s.stages then s.stages[d] else Idle
  }

  /** The run a card's latest claim opened. */
  predicate HasRun(s: State, task: TaskId) {
    && task in s.cards && s.cards[task].run < |s.runs|
    && s.runs[s.cards[task].run].taskId == task
  }

  /** The newest run of `task` that carries a PID, at or below index `below`. */
  function NewestPidRun(runs: seq<Run>, task: TaskId): (newest: Option<Run>)
    ensures newest.Some? ==> newest.value in runs && newest.value.taskId == task && newest.value.pid.Some?
  {
    if runs == [] then None
    else
      var last := runs[|runs| - 1];
      if last.taskId == task && last.pid.Some? then Some(last) else NewestPidRun(runs[..|runs| - 1], task)
  }

  predicate Claimable(card: Card) {
    (card.status == "ready" || card.status == "review") && card.pid.None?
  }

  /** The core compare-and-set: the card runs, and a run is opened for its assignee. */
  function Claimed(s: State, task: TaskId): (next: State)
    requires task in s.cards
  {
    var card := s.cards[task];
    s.(cards := s.cards[task := card.(status := "running", pid := None, spawned := None, run := |s.runs|)],
       runs := s.runs + [Run(card.board, task, card.assignee, None, false)])
  }

  function Unlocked(s: State, d: Dispatcher, r: Resource): (next: State) {
    s.(locks := s.locks - {r}, stages := s.stages[d := Idle])
  }

  /** The policy is resolved for the row's assignee, and its lock is free. */
  ghost predicate LockStep(cfg: Config, s: State, s': State, d: Dispatcher, task: TaskId) {
    && StageOf(s, d).Idle? && task in s.cards
    && PolicyFor(cfg, s.cards[task].assignee).Gated?
    && var r := PolicyFor(cfg, s.cards[task].assignee).resource;
       && r !in s.locks
       && s' == s.(locks := s.locks[r := d], stages := s.stages[d := Locked(task, r)])
  }

  /** `_quiesce_superseded_worker`: what becomes of the newest recorded process. */
  datatype Verdict = Clear | Refuse | Reap(pid: Pid)

  function QuiesceVerdict(s: State, task: TaskId, verify: Verifier, reaped: bool): (v: Verdict) {
    var run := NewestPidRun(s.runs, task);
    if run.None? || run.value.pid.value !in s.procs then Clear
    else if !run.value.ended then Refuse
    else match verify(run.value.pid.value, task)
         case NotMine => Clear
         case Unverifiable => Refuse
         case Mine => if reaped then Reap(run.value.pid.value) else Refuse
  }

  ghost predicate QuiesceStep(cfg: Config, s: State, s': State, d: Dispatcher, verify: Verifier, reaped: bool) {
    && StageOf(s, d).Locked? && Honest(s.procs, verify)
    && var stage := StageOf(s, d);
       var ready := s.(stages := s.stages[d := Scanning(stage.task, stage.resource, {}, {})]);
       var verdict := QuiesceVerdict(s, stage.task, verify, reaped);
       s' == (if verdict.Clear? then ready
              else if verdict.Refuse? then Unlocked(s, d, stage.resource)
              else ready.(procs := s.procs - {verdict.pid}))
  }

  /** One board is read in one look. */
  ghost predicate ScanStep(cfg: Config, s: State, s': State, d: Dispatcher, board: BoardId, verify: Verifier) {
    && StageOf(s, d).Scanning? && board in cfg.boards && Honest(s.procs, verify)
    && var stage := StageOf(s, d);
       s' == s.(stages := s.stages[d := stage.(
                  scanned := stage.scanned + {board},
                  slots := stage.slots + SlotsOn(cfg, stage.resource, board, s.cards, s.runs, s.procs, verify))])
  }

  /** All boards are counted, a slot is free, and the core claim succeeds. */
  ghost predicate ClaimStep(cfg: Config, s: State, s': State, d: Dispatcher) {
    && StageOf(s, d).Scanning? && StageOf(s, d).scanned == cfg.boards
    && var stage := StageOf(s, d);
       && |stage.slots| < cfg.capacity(stage.resource)
       && stage.task in s.cards && Claimable(s.cards[stage.task])
       && s' == Unlocked(Claimed(s, stage.task), d, stage.resource)
  }

  /** Busy, a lost compare-and-set, or any failure on the way. */
  ghost predicate LeaveStep(cfg: Config, s: State, s': State, d: Dispatcher) {
    !StageOf(s, d).Idle? && s' == Unlocked(s, d, StageOf(s, d).resource)
  }

  ghost predicate UngatedStep(cfg: Config, s: State, s': State, task: TaskId) {
    && task in s.cards && Claimable(s.cards[task])
    && PolicyFor(cfg, s.cards[task].assignee).Ungated?
    && s' == Claimed(s, task)
  }

  ghost predicate SpawnStep(s: State, s': State, task: TaskId, pid: Pid) {
    && task in s.cards && Reserved(s.cards[task]) && s.cards[task].spawned.None?
    && pid !in s.procs
    && s' == s.(cards := s.cards[task := s.cards[task].(spawned := Some(pid))], procs := s.procs[pid := HermesWorker(task)])
  }

  ghost predicate RecordStep(s: State, s': State, task: TaskId) {
    && HasRun(s, task) && Reserved(s.cards[task]) && s.cards[task].spawned.Some?
    && var card := s.cards[task];
       s' == s.(cards := s.cards[task := card.(pid := card.spawned)],
                runs := s.runs[card.run := s.runs[card.run].(pid := card.spawned)])
  }

  /** A run ends once its process is on record, or when none was started; the
      process itself may live on.  `EarlyEnd` is the other case. */
  ghost predicate CompleteStep(s: State, s': State, task: TaskId, status: string) {
    && HasRun(s, task) && s.cards[task].status == "running" && status != "running"
    && (Reserved(s.cards[task]) ==> s.cards[task].spawned.None?)
    && var card := s.cards[task];
       s' == s.(cards := s.cards[task := card.(status := status, pid := None)],
                runs := s.runs[card.run := s.runs[card.run].(ended := true)])
  }

  /** The claim of a spawned worker is released, and its run ended, before its
      process is on record: recording it failed, or the worker was quicker. */
  ghost predicate EarlyEndStep(s: State, s': State, task: TaskId, status: string) {
    && HasRun(s, task) && Reserved(s.cards[task]) && s.cards[task].spawned.Some? && status != "running"
    && var card := s.cards[task];
       s' == s.(cards := s.cards[task := card.(status := status)],
                runs := s.runs[card.run := s.runs[card.run].(ended := true)])
  }

  /** The guard that the code does not have: an early end leaves no live worker
      of a grouped card behind. */
  ghost predicate EndsOnRecord(cfg: Config, s: State, step: Step) {
    step.EarlyEnd? && Grouped(cfg, s, step.task) ==>
      s.cards[step.task].spawned.Some? && !WorkerOf(s, s.cards[step.task].spawned.value, step.task)
  }

  ghost predicate RequeueStep(s: State, s': State, task: TaskId, status: string) {
    && task in s.cards && s.cards[task].status != "running" && status != "running"
    && s' == s.(cards := s.cards[task := s.cards[task].(status := status)])
  }

  ghost predicate Next(cfg: Config, s: State, s': State, step: Step) {
    match step
    case TryLock(d, task) => LockStep(cfg, s, s', d, task)
    case Quiesce(d, verify, reaped) => QuiesceStep(cfg, s, s', d, verify, reaped)
    case ScanNext(d, board, verify) => ScanStep(cfg, s, s', d, board, verify)
    case Claim(d) => ClaimStep(cfg, s, s', d)
    case Leave(d) => LeaveStep(cfg, s, s', d)
    case ClaimUngated(task) => UngatedStep(cfg, s, s', task)
    case Spawn(task, pid) => SpawnStep(s, s', task, pid)
    case RecordPid(task) => RecordStep(s, s', task)
    case Complete(task, status) => CompleteStep(s, s', task, status)
    case EarlyEnd(task, status) => EarlyEndStep(s, s', task, status)
    case Requeue(task, status) => RequeueStep(s, s', task, status)
    case Exit(pid) => pid in s.procs && s' == s.(procs := s.procs - {pid})
    case StartOther(pid) => pid !in s.procs && s' == s.(procs := s.procs[pid := OtherProcess])
  }

  /** What may happen at any time, whatever the dispatchers are doing: a process ends
      or starts, a claim is given up, and a card outside all groups is claimed. */
  lemma OthersCanHappen(cfg: Config, s: State, d: Dispatcher, task: TaskId, pid: Pid)
    ensures pid in s.procs ==> Next(cfg, s, s.(procs := s.procs - {pid}), Exit(pid))
    ensures pid !in s.procs ==> Next(cfg, s, s.(procs := s.procs[pid := OtherProcess]), StartOther(pid))
    ensures !StageOf(s, d).Idle? ==>
              Next(cfg, s, s.(locks := s.locks - {StageOf(s, d).resource}, stages := s.stages[d := Idle]), Leave(d))
    ensures task in s.cards && s.cards[task].status in {"ready", "review"} && s.cards[task].pid.None?
            && (s.cards[task].assignee == "" || cfg.groups(s.cards[task].assignee) == {}) ==>
              Next(cfg, s, s.(cards := s.cards[task := s.cards[task].(status := "running", spawned := None, run := |s.runs|)],
                              runs := s.runs + [Run(s.cards[task].board, task, s.cards[task].assignee, None, false)]), ClaimUngated(task))
  {}

  /** What a step needs: an idle dispatcher and a free lock of the card's only group;
      a count of every board below the capacity and a waiting card without process;
      a running card to complete; a claimed card without process to spawn for. */
  lemma StepsAreGuarded(cfg: Config, s: State, s': State, step: Step)
    requires Next(cfg, s, s', step)
    ensures step.TryLock? ==>
              && StageOf(s, step.d) == Idle && step.task in s.cards && s.cards[step.task].assignee != ""
              && exists r :: cfg.groups(s.cards[step.task].assignee) == {r} && r !in s.locks
    ensures step.ScanNext? ==> StageOf(s, step.d).Scanning? && step.board in cfg.boards
    ensures step.Claim? ==>
              && StageOf(s, step.d).Scanning? && StageOf(s, step.d).scanned == cfg.boards
              && |StageOf(s, step.d).slots| < cfg.capacity(StageOf(s, step.d).resource)
              && StageOf(s, step.d).task in s.cards
              && s.cards[StageOf(s, step.d).task].status in {"ready", "review"} && s.cards[StageOf(s, step.d).task].pid.None?
    ensures step.ClaimUngated? ==>
              step.task in s.cards && s.cards[step.task].status in {"ready", "review"} && s.cards[step.task].pid.None?
    ensures step.Spawn? ==>
              && step.task in s.cards && s.cards[step.task].status == "running" && s.cards[step.task].pid.None?
              && s.cards[step.task].spawned.None? && step.pid !in s.procs
    ensures step.Complete? ==> step.task in s.cards && s.cards[step.task].status == "running" && step.status != "running"
    ensures step.EarlyEnd? ==>
              && step.task in s.cards && s.cards[step.task].status == "running" && s.cards[step.task].pid.None?
              && s.cards[step.task].spawned.Some? && step.status != "running"
    ensures step.Requeue? ==> step.task in s.cards && s.cards[step.task].status != "running" && step.status != "running"
  {
    if step.TryLock? {
      assert cfg.groups(s.cards[step.task].assignee) == {PolicyFor(cfg, s.cards[step.task].assignee).resource};
    }
  }

  // ------------------------------------------------------------- the reap check

  predicate Recorded(run: Run, task: TaskId) {
    run.taskId == task && run.pid.Some?
  }

  /** Run `k` is the last one of `task` that carries a PID. */
  ghost predicate LastRecorded(runs: seq<Run>, task: TaskId, k: nat) {
    k < |runs| && Recorded(runs[k], task) && forall i :: k < i < |runs| ==> !Recorded(runs[i], task)
  }

  lemma {:induction false} NewestPidRunWhen(runs: seq<Run>, task: TaskId)
    ensures NewestPidRun(runs, task).None? <==> forall i :: 0 <= i < |runs| ==> !Recorded(runs[i], task)
    ensures forall k: nat :: LastRecorded(runs, task, k) ==> NewestPidRun(runs, task) == Some(runs[k])
  {
    if runs != [] {
      var n := |runs| - 1;
      NewestPidRunWhen(runs[..n], task);
      assert forall i :: 0 <= i < n ==> runs[..n][i] == runs[i];
      if Recorded(runs[n], task) {
        assert NewestPidRun(runs, task) == Some(runs[n]);
        assert forall k: nat :: LastRecorded(runs, task, k) ==> k == n;
      } else {
        forall k: nat | LastRecorded(runs, task, k) ensures NewestPidRun(runs, task) == Some(runs[k]) {
          assert LastRecorded(runs[..n], task, k);
        }
      }
    }
  }

  /** The check moves on to the count, or gives the lock back; nothing else of the
      dispatchers changes. */
  ghost predicate MovesOn(s: State, s': State, d: Dispatcher, on: bool)
    requires StageOf(s, d).Locked?
  {
    var stage := StageOf(s, d);
    && (forall other :: other != d ==> StageOf(s', other) == StageOf(s, other))
    && if on then StageOf(s', d) == Scanning(stage.task, stage.resource, {}, {}) && s'.locks == s.locks
       else StageOf(s', d) == Idle && s'.locks == s.locks - {stage.resource}
  }

  /** The reap check ends a process exactly when the newest recorded run of the card
      has ended, its process is alive and verified as the card's, and the kill
      succeeds; it then ends that one alone and moves on.  It also moves on when
      that process is gone, or belongs to an ended run and is not the card's.  In
      every other case the lock goes back and all processes live. */
  lemma ReapsWhen(cfg: Config, s: State, s': State, d: Dispatcher, verify: Verifier, reaped: bool, k: nat)
    requires QuiesceStep(cfg, s, s', d, verify, reaped) && LastRecorded(s.runs, StageOf(s, d).task, k)
    ensures var (run, task) := (s.runs[k], StageOf(s, d).task);
            var alive := run.pid.value in s.procs;
            var reaps := run.ended && alive && verify(run.pid.value, task) == Mine && reaped;
            var passes := !alive || (run.ended && verify(run.pid.value, task) == NotMine);
            && s'.cards == s.cards && s'.runs == s.runs
            && (s'.procs != s.procs <==> reaps)
            && (reaps ==> s'.procs == s.procs - {run.pid.value})
            && MovesOn(s, s', d, reaps || passes)
  {
    NewestPidRunWhen(s.runs, StageOf(s, d).task);
    hide NewestPidRun;
    if s'.procs == s.procs {
      assert s.runs[k].pid.value in s.procs ==> s.procs - {s.runs[k].pid.value} != s.procs;
    }
  }

  /** Without a recorded run there is nothing to reap and the check moves on. */
  lemma NothingToReap(cfg: Config, s: State, s': State, d: Dispatcher, verify: Verifier, reaped: bool)
    requires QuiesceStep(cfg, s, s', d, verify, reaped)
    requires forall i :: 0 <= i < |s.runs| ==> !Recorded(s.runs[i], StageOf(s, d).task)
    ensures s'.cards == s.cards && s'.runs == s.runs && s'.procs == s.procs && MovesOn(s, s', d, true)
  {
    NewestPidRunWhen(s.runs, StageOf(s, d).task);
    hide NewestPidRun;
  }

  /** The check always has an outcome. */
  lemma QuiesceCanHappen(cfg: Config, s: State, d: Dispatcher, verify: Verifier, reaped: bool)
    requires StageOf(s, d).Locked? && Honest(s.procs, verify)
    ensures exists s' :: QuiesceStep(cfg, s, s', d, verify, reaped)
  {
    hide Honest;
    var stage := StageOf(s, d);
    var ready := s.(stages := s.stages[d := Scanning(stage.task, stage.resource, {}, {})]);
    var verdict := QuiesceVerdict(s, stage.task, verify, reaped);
    var s' := if verdict.Clear? then ready
              else if verdict.Refuse? then Unlocked(s, d, stage.resource)
              else ready.(procs := s.procs - {verdict.pid});
    assert QuiesceStep(cfg, s, s', d, verify, reaped);
  }

  // ----------------------------------------------------------------- occupancy

  /** The process that a reservation has started but not yet recorded. */
  predicate InFlight(s: State, task: TaskId, pid: Pid) {
    task in s.cards && Reserved(s.cards[task]) && s.cards[task].spawned == Some(pid)
  }

  predicate WorkerOf(s: State, pid: Pid, task: TaskId) {
    pid in s.procs && s.procs[pid] == HermesWorker(task)
  }

  predicate HoldsSlot(cfg: Config, s: State, r: Resource, pid: Pid) {
    && pid in s.procs && s.procs[pid].HermesWorker?
    && s.procs[pid].taskId in s.cards
    && Matches(cfg, r, s.cards[s.procs[pid].taskId].assignee)
    && !InFlight(s, s.procs[pid].taskId, pid)
  }

  predicate HoldsReservation(cfg: Config, s: State, r: Resource, task: TaskId) {
    task in s.cards && Reserved(s.cards[task]) && Matches(cfg, r, s.cards[task].assignee)
  }

  /** Reservations, each together with the process it may have started, and live
      workers whose process is on record, whatever became of their runs. */
  function Occupied(cfg: Config, s: State, r: Resource): (slots: set<Slot>) {
    (set t | t in s.cards && HoldsReservation(cfg, s, r, t) :: Reservation(t))
    + (set p | p in s.procs && HoldsSlot(cfg, s, r, p) :: Worker(p))
  }

  lemma OccupiedSlot(cfg: Config, s: State, r: Resource, slot: Slot)
    ensures slot in Occupied(cfg, s, r)
            <==> if slot.Worker? then HoldsSlot(cfg, s, r, slot.pid) else HoldsReservation(cfg, s, r, slot.taskId)
  {}

  // ---------------------------------------------------------------- invariants

  /** The holder of a stage holds the lock of its resource. */
  ghost predicate LockInv(s: State) {
    forall d :: !StageOf(s, d).Idle? ==> StageOf(s, d).resource in s.locks && s.locks[StageOf(s, d).resource] == d
  }

  predicate IsRecord(run: Run, pid: Pid, task: TaskId, name: string, board: BoardId) {
    run.taskId == task && run.pid == Some(pid) && run.profile == name && run.board == board
  }

  ghost predicate OnRecord(runs: seq<Run>, pid: Pid, task: TaskId, name: string, board: BoardId) {
    exists i :: 0 <= i < |runs| && IsRecord(runs[i], pid, task, name, board)
  }

  /** The card's assignee belongs to some resource group. */
  predicate Grouped(cfg: Config, s: State, t: TaskId) {
    t in s.cards && !PolicyFor(cfg, s.cards[t].assignee).Ungated?
  }

  /** Every worker belongs to a card; that of a grouped card is in flight or on record. */
  ghost predicate HistoryInv(cfg: Config, s: State) {
    && (forall p, t :: WorkerOf(s, p, t) ==> t in s.cards && (Grouped(cfg, s, t) ==> Accounted(s, p, t)))
    && (forall t :: t in s.cards && s.cards[t].status == "running" ==> RunMatches(s, t))
  }

  /** The worker is in flight, or on record on the board of its card. */
  ghost predicate Accounted(s: State, p: Pid, t: TaskId)
    requires t in s.cards
  {
    InFlight(s, t, p) || OnRecord(s.runs, p, t, s.cards[t].assignee, s.cards[t].board)
  }

  ghost predicate RunMatches(s: State, t: TaskId) {
    && HasRun(s, t)
    && s.runs[s.cards[t].run].profile == s.cards[t].assignee
    && s.runs[s.cards[t].run].board == s.cards[t].board
    && (Reserved(s.cards[t]) ==> s.runs[s.cards[t].run].pid.None?)
  }

  /** A stage serves a card whose policy names the stage's resource. */
  ghost predicate StageInv(cfg: Config, s: State) {
    forall d :: !StageOf(s, d).Idle? ==>
      && StageOf(s, d).task in s.cards
      && PolicyFor(cfg, s.cards[StageOf(s, d).task].assignee) == Gated(StageOf(s, d).resource)
  }

  ghost predicate BoardsInv(cfg: Config, s: State) {
    forall t :: t in s.cards ==> s.cards[t].board in cfg.boards
  }

  /** A slot on a scanned board is counted: a reservation as itself, a worker as
      itself or as the reservation it was when the board was read. */
  ghost predicate Counted(s: State, slots: set<Slot>, slot: Slot) {
    || slot in slots
    || (slot.Worker? && slot.pid in s.procs && s.procs[slot.pid].HermesWorker?
        && var t := s.procs[slot.pid].taskId;
           && t in s.cards && Reservation(t) in slots
           && s.cards[t].spawned == Some(slot.pid) && !Reserved(s.cards[t]))
  }

  /** The board that a slot stands on. */
  predicate SlotOnBoard(s: State, slot: Slot, boards: set<BoardId>) {
    match slot
    case Reservation(t) => t in s.cards && s.cards[t].board in boards
    case Worker(p) => p in s.procs && s.procs[p].HermesWorker? && s.procs[p].taskId in s.cards && s.cards[s.procs[p].taskId].board in boards
  }

  ghost predicate ScanInv(cfg: Config, s: State) {
    forall d, slot :: StageOf(s, d).Scanning? && slot in Occupied(cfg, s, StageOf(s, d).resource)
                      && SlotOnBoard(s, slot, StageOf(s, d).scanned)
      ==> Counted(s, StageOf(s, d).slots, slot)
  }

  ghost predicate BoundInv(cfg: Config, s: State, bound: Resource -> nat) {
    forall r :: |Occupied(cfg, s, r)| <= bound(r)
  }

  ghost predicate Inv(cfg: Config, s: State, bound: Resource -> nat) {
    LockInv(s) && StageInv(cfg, s) && HistoryInv(cfg, s) && BoardsInv(cfg, s) && ScanInv(cfg, s) && BoundInv(cfg, s, bound)
  }

  // ------------------------------------------------------------ steps that only
  // take locks, read, or end processes

  /** Same tables; the processes of `s'` that are workers were so in `s`. */
  ghost predicate Calm(s: State, s': State) {
    && s'.cards == s.cards && s'.runs == s.runs
    && forall p, t :: WorkerOf(s', p, t) ==> WorkerOf(s, p, t)
  }

  lemma CalmOccupied(cfg: Config, s: State, s': State, r: Resource)
    requires Calm(s, s')
    ensures Occupied(cfg, s', r) <= Occupied(cfg, s, r)
    ensures |Occupied(cfg, s', r)| <= |Occupied(cfg, s, r)|
  {
    forall slot | slot in Occupied(cfg, s', r) ensures slot in Occupied(cfg, s, r) {
      OccupiedSlot(cfg, s', r, slot);
      OccupiedSlot(cfg, s, r, slot);
      if slot.Worker? {
        assert WorkerOf(s', slot.pid, s'.procs[slot.pid].taskId);
      }
    }
    SubsetCardinality(Occupied(cfg, s', r), Occupied(cfg, s, r));
  }

  lemma CalmHistory(cfg: Config, s: State, s': State)
    requires Calm(s, s') && HistoryInv(cfg, s)
    ensures HistoryInv(cfg, s')
  {
    forall t | t in s'.cards && s'.cards[t].status == "running" ensures RunMatches(s', t) {
      assert RunMatches(s, t);
    }
    forall p, t | WorkerOf(s', p, t)
      ensures t in s'.cards && (Grouped(cfg, s', t) ==> Accounted(s', p, t))
    {
      assert WorkerOf(s, p, t);
    }
  }

  /** A dispatcher that was scanning before keeps its count valid. */
  lemma CalmScan(cfg: Config, s: State, s': State, d: Dispatcher)
    requires Calm(s, s') && ScanInv(cfg, s)
    requires StageOf(s', d).Scanning? ==> StageOf(s', d) == StageOf(s, d) || StageOf(s', d).scanned == {}
    ensures forall slot :: StageOf(s', d).Scanning? && slot in Occupied(cfg, s', StageOf(s', d).resource)
                           && SlotOnBoard(s', slot, StageOf(s', d).scanned)
              ==> Counted(s', StageOf(s', d).slots, slot)
  {
    if StageOf(s', d).Scanning? && StageOf(s', d) == StageOf(s, d) {
      var stage := StageOf(s, d);
      CalmOccupied(cfg, s, s', stage.resource);
      forall slot | slot in Occupied(cfg, s', stage.resource) && SlotOnBoard(s', slot, stage.scanned)
        ensures Counted(s', stage.slots, slot)
      {
        OccupiedSlot(cfg, s', stage.resource, slot);
        if slot.Worker? {
          assert WorkerOf(s', slot.pid, s'.procs[slot.pid].taskId);
        }
        assert SlotOnBoard(s, slot, stage.scanned);
        assert Counted(s, stage.slots, slot);
      }
    }
  }

  lemma CalmKeeps(cfg: Config, s: State, s': State, bound: Resource -> nat)
    requires Inv(cfg, s, bound) && Calm(s, s') && LockInv(s') && StageInv(cfg, s')
    requires forall d :: StageOf(s', d).Scanning? ==> StageOf(s', d) == StageOf(s, d) || StageOf(s', d).scanned == {}
    ensures Inv(cfg, s', bound)
  {
    CalmHistory(cfg, s, s');
    forall d, slot | StageOf(s', d).Scanning? && slot in Occupied(cfg, s', StageOf(s', d).resource)
                     && SlotOnBoard(s', slot, StageOf(s', d).scanned)
      ensures Counted(s', StageOf(s', d).slots, slot)
    {
      CalmScan(cfg, s, s', d);
    }
    forall r ensures |Occupied(cfg, s', r)| <= bound(r) {
      CalmOccupied(cfg, s, s', r);
    }
  }

  /** Every card still stands, under the assignee and on the board it had. */
  ghost predicate SameCards(s: State, s': State) {
    && s'.cards.Keys == s.cards.Keys
    && forall t :: t in s.cards ==> s'.cards[t].assignee == s.cards[t].assignee && s'.cards[t].board == s.cards[t].board
  }

  /** Only `d` moves, and it ends idle or holding its lock. */
  lemma StagesKeep(cfg: Config, s: State, s': State, d: Dispatcher)
    requires LockInv(s) && StageInv(cfg, s) && SameCards(s, s')
    requires forall c :: c != d ==> StageOf(s', c) == StageOf(s, c)
    requires forall r :: r in s.locks && s.locks[r] != d ==> r in s'.locks && s'.locks[r] == s.locks[r]
    requires !StageOf(s', d).Idle? ==>
               && StageOf(s', d).resource in s'.locks && s'.locks[StageOf(s', d).resource] == d
               && StageOf(s', d).task in s.cards
               && PolicyFor(cfg, s.cards[StageOf(s', d).task].assignee) == Gated(StageOf(s', d).resource)
    ensures LockInv(s') && StageInv(cfg, s')
  {
    hide PolicyFor;
    forall c | !StageOf(s', c).Idle?
      ensures StageOf(s', c).resource in s'.locks && s'.locks[StageOf(s', c).resource] == c
      ensures StageOf(s', c).task in s'.cards
      ensures PolicyFor(cfg, s'.cards[StageOf(s', c).task].assignee) == Gated(StageOf(s', c).resource)
    {
      if c != d {
        assert !StageOf(s, c).Idle?;
      }
    }
  }

  lemma LockKeeps(cfg: Config, s: State, s': State, d: Dispatcher, task: TaskId, bound: Resource -> nat)
    requires Inv(cfg, s, bound) && LockStep(cfg, s, s', d, task)
    ensures Inv(cfg, s', bound)
  {
    hide ScanInv, BoundInv, HistoryInv, Occupied, PolicyFor;
    StagesKeep(cfg, s, s', d);
    CalmKeeps(cfg, s, s', bound);
  }

  lemma LeaveKeeps(cfg: Config, s: State, s': State, d: Dispatcher, bound: Resource -> nat)
    requires Inv(cfg, s, bound) && LeaveStep(cfg, s, s', d)
    ensures Inv(cfg, s', bound)
  {
    hide ScanInv, BoundInv, HistoryInv, Occupied, PolicyFor;
    assert s.locks[StageOf(s, d).resource] == d;
    StagesKeep(cfg, s, s', d);
    CalmKeeps(cfg, s, s', bound);
  }

  lemma QuiesceKeeps(cfg: Config, s: State, s': State, d: Dispatcher, verify: Verifier, reaped: bool, bound: Resource -> nat)
    requires Inv(cfg, s, bound) && QuiesceStep(cfg, s, s', d, verify, reaped)
    ensures Inv(cfg, s', bound)
  {
    hide ScanInv, BoundInv, HistoryInv, Occupied, PolicyFor, NewestPidRun;
    assert s.locks[StageOf(s, d).resource] == d;
    StagesKeep(cfg, s, s', d);
    CalmKeeps(cfg, s, s', bound);
  }

  lemma ProcessKeeps(cfg: Config, s: State, s': State, bound: Resource -> nat)
    requires Inv(cfg, s, bound)
    requires s'.cards == s.cards && s'.runs == s.runs && s'.locks == s.locks && s'.stages == s.stages
    requires forall p, t :: WorkerOf(s', p, t) ==> WorkerOf(s, p, t)
    ensures Inv(cfg, s', bound)
  {
    hide ScanInv, BoundInv, HistoryInv, Occupied, PolicyFor;
    SameStages(cfg, s, s');
    CalmKeeps(cfg, s, s', bound);
  }

  lemma SameStages(cfg: Config, s: State, s': State)
    requires LockInv(s) && StageInv(cfg, s) && SameCards(s, s')
    requires s'.locks == s.locks && s'.stages == s.stages
    ensures LockInv(s') && StageInv(cfg, s')
    ensures forall d :: StageOf(s', d) == StageOf(s, d)
  {
    StagesKeep(cfg, s, s', 0) by {
      if !StageOf(s', 0).Idle? {
        assert !StageOf(s, 0).Idle?;
      }
    }
  }

  /** What a scan of one board cannot miss. */
  lemma ScanFindsSlot(cfg: Config, s: State, r: Resource, board: BoardId, verify: Verifier, slot: Slot)
    requires HistoryInv(cfg, s) && Honest(s.procs, verify)
    requires slot in Occupied(cfg, s, r) && SlotOnBoard(s, slot, {board})
    ensures slot in SlotsOn(cfg, r, board, s.cards, s.runs, s.procs, verify)
  {
    OccupiedSlot(cfg, s, r, slot);
    if slot.Worker? {
      var t := s.procs[slot.pid].taskId;
      assert WorkerOf(s, slot.pid, t);
      assert Grouped(cfg, s, t) && Accounted(s, slot.pid, t);
      var i :| 0 <= i < |s.runs| && IsRecord(s.runs[i], slot.pid, t, s.cards[t].assignee, s.cards[t].board);
      assert verify(slot.pid, t) != NotMine;
      assert s.runs[i] in s.runs && OccupyingRun(cfg, r, board, s.cards, s.procs, verify, s.runs[i]);
    } else {
      assert OccupyingCard(cfg, r, board, s.cards, s.procs, slot.taskId);
      assert CardSlot(slot.taskId, s.cards[slot.taskId]) == slot;
    }
  }

  /** The identity check is never in doubt. */
  ghost predicate Certain(procs: map<Pid, Process>, verify: Verifier) {
    forall p, t :: p in procs ==> (verify(p, t) == NotMine <==> procs[p] != HermesWorker(t))
  }

  /** No row points at a process that is not, or not yet, the one it means. */
  ghost predicate NoReuse(s: State) {
    && (forall run :: run in s.runs && run.pid.Some? ==>
          && run.taskId in s.cards && run.board == s.cards[run.taskId].board
          && (run.profile == "" || run.profile == s.cards[run.taskId].assignee)
          && !InFlight(s, run.taskId, run.pid.value))
    && (forall t :: t in s.cards && s.cards[t].status == "running" && s.cards[t].pid.Some? && s.cards[t].pid.value in s.procs ==>
          WorkerOf(s, s.cards[t].pid.value, t))
  }

  /** Where processes are known for what they are and no PID has been reused, one
      look at a board counts exactly the slots occupied on it. */
  lemma ScanIsExact(cfg: Config, s: State, r: Resource, board: BoardId, verify: Verifier, slot: Slot)
    requires HistoryInv(cfg, s) && Certain(s.procs, verify) && NoReuse(s)
    ensures slot in SlotsOn(cfg, r, board, s.cards, s.runs, s.procs, verify)
            <==> slot in Occupied(cfg, s, r) && SlotOnBoard(s, slot, {board})
  {
    if slot in Occupied(cfg, s, r) && SlotOnBoard(s, slot, {board}) {
      ScanFindsSlot(cfg, s, r, board, verify, slot);
    }
    if slot in SlotsOn(cfg, r, board, s.cards, s.runs, s.procs, verify) {
      hide HistoryInv;
      OccupiedSlot(cfg, s, r, slot);
      if slot.Worker? && slot in RunSlots(cfg, r, board, s.cards, s.runs, s.procs, verify) {
        var run :| run in s.runs && OccupyingRun(cfg, r, board, s.cards, s.procs, verify, run) && run.pid == Some(slot.pid);
        assert WorkerOf(s, slot.pid, run.taskId);
      }
    }
  }

  lemma ScanKeeps(cfg: Config, s: State, s': State, d: Dispatcher, board: BoardId, verify: Verifier, bound: Resource -> nat)
    requires Inv(cfg, s, bound) && ScanStep(cfg, s, s', d, board, verify)
    ensures Inv(cfg, s', bound)
  {
    hide SlotsOn, PolicyFor;
    assert !StageOf(s, d).Idle?;
    StagesKeep(cfg, s, s', d);
    CalmHistory(cfg, s, s');
    forall r ensures |Occupied(cfg, s', r)| <= bound(r) {
      CalmOccupied(cfg, s, s', r);
    }
    forall c, slot | StageOf(s', c).Scanning? && slot in Occupied(cfg, s', StageOf(s', c).resource)
                     && SlotOnBoard(s', slot, StageOf(s', c).scanned)
      ensures Counted(s', StageOf(s', c).slots, slot)
    {
      var stage := StageOf(s, c);
      CalmOccupied(cfg, s, s', stage.resource);
      if c == d && SlotOnBoard(s, slot, {board}) {
        ScanFindsSlot(cfg, s, stage.resource, board, verify, slot);
      } else {
        assert SlotOnBoard(s, slot, stage.scanned);
        assert Counted(s, stage.slots, slot);
      }
    }
  }

  // ------------------------------------------------- steps that write the tables

  /** No slot of `r` appears, and what a scan has counted stays counted. */
  ghost predicate Steady(cfg: Config, s: State, s': State, r: Resource) {
    forall slot :: slot in Occupied(cfg, s', r) ==> slot in Occupied(cfg, s, r) && SameSlot(s, s', slot)
  }

  ghost predicate SameSlot(s: State, s': State, slot: Slot) {
    slot.Worker? ==>
      && slot.pid in s.procs && slot.pid in s'.procs && s'.procs[slot.pid] == s.procs[slot.pid]
      && s.procs[slot.pid].HermesWorker?
      && var t := s.procs[slot.pid].taskId;
         && t in s.cards && t in s'.cards
         && (!Reserved(s.cards[t]) ==> !Reserved(s'.cards[t]) && s'.cards[t].spawned == s.cards[t].spawned)
  }

  lemma SteadyKeeps(cfg: Config, s: State, s': State, bound: Resource -> nat)
    requires Inv(cfg, s, bound) && SameCards(s, s')
    requires LockInv(s') && StageInv(cfg, s') && HistoryInv(cfg, s') && BoundInv(cfg, s', bound)
    requires forall d :: StageOf(s', d).Scanning? ==> StageOf(s', d) == StageOf(s, d) && Steady(cfg, s, s', StageOf(s, d).resource)
    ensures Inv(cfg, s', bound)
  {
    hide HistoryInv, BoundInv, Occupied, LockInv, StageInv;
    forall d, slot | StageOf(s', d).Scanning? && slot in Occupied(cfg, s', StageOf(s', d).resource)
                     && SlotOnBoard(s', slot, StageOf(s', d).scanned)
      ensures Counted(s', StageOf(s', d).slots, slot)
    {
      assert SameSlot(s, s', slot);
      assert SlotOnBoard(s, slot, StageOf(s, d).scanned);
      assert Counted(s, StageOf(s, d).slots, slot);
    }
  }

  lemma SteadyBound(cfg: Config, s: State, s': State, bound: Resource -> nat)
    requires BoundInv(cfg, s, bound) && forall r :: Steady(cfg, s, s', r)
    ensures BoundInv(cfg, s', bound)
  {
    hide Occupied;
    forall r ensures |Occupied(cfg, s', r)| <= bound(r) {
      assert Steady(cfg, s, s', r);
      SubsetCardinality(Occupied(cfg, s', r), Occupied(cfg, s, r));
    }
  }

  /** Only the row of `task` changes, and no process. */
  ghost predicate OneCard(s: State, s': State, task: TaskId) {
    && SameCards(s, s') && task in s.cards
    && (forall t :: t in s.cards && t != task ==> s'.cards[t] == s.cards[t])
    && s'.procs == s.procs
  }

  lemma OneCardSteady(cfg: Config, s: State, s': State, task: TaskId, r: Resource)
    requires OneCard(s, s', task)
    requires Matches(cfg, r, s.cards[task].assignee) ==>
               && (Reserved(s'.cards[task]) ==> Reserved(s.cards[task]))
               && (forall p :: WorkerOf(s, p, task) && InFlight(s, task, p) ==> InFlight(s', task, p))
               && (!Reserved(s.cards[task]) ==> s'.cards[task].spawned == s.cards[task].spawned)
    ensures Steady(cfg, s, s', r)
  {
    forall slot | slot in Occupied(cfg, s', r) ensures slot in Occupied(cfg, s, r) && SameSlot(s, s', slot) {
      OccupiedSlot(cfg, s', r, slot);
      OccupiedSlot(cfg, s, r, slot);
    }
  }

  /** Records only grow. */
  ghost predicate RunsGrow(runs: seq<Run>, runs': seq<Run>) {
    forall p, t, name, board :: OnRecord(runs, p, t, name, board) ==> OnRecord(runs', p, t, name, board)
  }

  lemma OneCardHistory(cfg: Config, s: State, s': State, task: TaskId)
    requires HistoryInv(cfg, s) && OneCard(s, s', task) && RunsGrow(s.runs, s'.runs)
    requires forall p :: Grouped(cfg, s, task) && WorkerOf(s, p, task) && InFlight(s, task, p) ==> Accounted(s', p, task)
    requires |s.runs| <= |s'.runs|
    requires forall i :: 0 <= i < |s.runs| && s.runs[i].taskId != task ==> s'.runs[i] == s.runs[i]
    requires s'.cards[task].status == "running" ==> RunMatches(s', task)
    ensures HistoryInv(cfg, s')
  {
    forall t | t in s'.cards && s'.cards[t].status == "running" ensures RunMatches(s', t) {
      if t != task { assert RunMatches(s, t); }
    }
    forall p, t | WorkerOf(s', p, t)
      ensures t in s'.cards && (Grouped(cfg, s', t) ==> Accounted(s', p, t))
    {
      assert WorkerOf(s, p, t);
    }
  }

  lemma RunsAppend(runs: seq<Run>, run: Run)
    ensures RunsGrow(runs, runs + [run])
  {
    forall p, t, name, board | OnRecord(runs, p, t, name, board) ensures OnRecord(runs + [run], p, t, name, board) {
      var i :| 0 <= i < |runs| && IsRecord(runs[i], p, t, name, board);
      assert IsRecord((runs + [run])[i], p, t, name, board);
    }
  }

  lemma RunsUpdate(runs: seq<Run>, k: nat, run: Run)
    requires k < |runs| && run.taskId == runs[k].taskId && run.profile == runs[k].profile && run.board == runs[k].board
    requires runs[k].pid.Some? ==> run.pid == runs[k].pid
    ensures RunsGrow(runs, runs[k := run])
  {
    forall p, t, name, board | OnRecord(runs, p, t, name, board) ensures OnRecord(runs[k := run], p, t, name, board) {
      var i :| 0 <= i < |runs| && IsRecord(runs[i], p, t, name, board);
      assert IsRecord(runs[k := run][i], p, t, name, board);
    }
  }

  lemma UngatedKeeps(cfg: Config, s: State, s': State, task: TaskId, bound: Resource -> nat)
    requires Inv(cfg, s, bound) && UngatedStep(cfg, s, s', task)
    ensures Inv(cfg, s', bound)
  {
    hide Occupied, Steady, ScanInv, BoundInv, OnRecord, RunsGrow;
    SameStages(cfg, s, s');
    RunsAppend(s.runs, Run(s.cards[task].board, task, s.cards[task].assignee, None, false));
    OneCardHistory(cfg, s, s', task);
    forall r ensures Steady(cfg, s, s', r) { OneCardSteady(cfg, s, s', task, r); }
    SteadyBound(cfg, s, s', bound);
    SteadyKeeps(cfg, s, s', bound);
  }

  lemma RequeueKeeps(cfg: Config, s: State, s': State, task: TaskId, status: string, bound: Resource -> nat)
    requires Inv(cfg, s, bound) && RequeueStep(s, s', task, status)
    ensures Inv(cfg, s', bound)
  {
    hide Occupied, Steady, ScanInv, BoundInv, OnRecord;
    SameStages(cfg, s, s');
    OneCardHistory(cfg, s, s', task);
    forall r ensures Steady(cfg, s, s', r) { OneCardSteady(cfg, s, s', task, r); }
    SteadyBound(cfg, s, s', bound);
    SteadyKeeps(cfg, s, s', bound);
  }

  lemma CompleteKeeps(cfg: Config, s: State, s': State, task: TaskId, status: string, bound: Resource -> nat)
    requires Inv(cfg, s, bound) && CompleteStep(s, s', task, status)
    ensures Inv(cfg, s', bound)
  {
    hide Occupied, Steady, ScanInv, BoundInv, OnRecord, RunsGrow;
    SameStages(cfg, s, s');
    RunsUpdate(s.runs, s.cards[task].run, s.runs[s.cards[task].run].(ended := true));
    OneCardHistory(cfg, s, s', task);
    forall r ensures Steady(cfg, s, s', r) { OneCardSteady(cfg, s, s', task, r); }
    SteadyBound(cfg, s, s', bound);
    SteadyKeeps(cfg, s, s', bound);
  }

  lemma EarlyEndKeeps(cfg: Config, s: State, s': State, task: TaskId, status: string, bound: Resource -> nat)
    requires Inv(cfg, s, bound) && EarlyEndStep(s, s', task, status) && EndsOnRecord(cfg, s, EarlyEnd(task, status))
    ensures Inv(cfg, s', bound)
  {
    hide Occupied, Steady, ScanInv, BoundInv, OnRecord, RunsGrow, PolicyFor;
    SameStages(cfg, s, s');
    RunsUpdate(s.runs, s.cards[task].run, s.runs[s.cards[task].run].(ended := true));
    OneCardHistory(cfg, s, s', task);
    forall r ensures Steady(cfg, s, s', r) {
      MatchingIsGrouped(cfg, s, r, task);
      OneCardSteady(cfg, s, s', task, r);
    }
    SteadyBound(cfg, s, s', bound);
    SteadyKeeps(cfg, s, s', bound);
  }

  lemma MatchingIsGrouped(cfg: Config, s: State, r: Resource, task: TaskId)
    ensures task in s.cards && Matches(cfg, r, s.cards[task].assignee) ==> Grouped(cfg, s, task)
  {}

  lemma SpawnKeeps(cfg: Config, s: State, s': State, task: TaskId, pid: Pid, bound: Resource -> nat)
    requires Inv(cfg, s, bound) && SpawnStep(s, s', task, pid)
    ensures Inv(cfg, s', bound)
  {
    hide ScanInv, BoundInv, OnRecord, Steady;
    SameStages(cfg, s, s');
    forall t | t in s'.cards && s'.cards[t].status == "running" ensures RunMatches(s', t) {
      assert RunMatches(s, t);
    }
    forall p, t | WorkerOf(s', p, t)
      ensures t in s'.cards && (Grouped(cfg, s', t) ==> Accounted(s', p, t))
    {
      if p != pid { assert WorkerOf(s, p, t); }
    }
    forall r ensures Steady(cfg, s, s', r) { SpawnSteady(cfg, s, s', task, pid, r); }
    SteadyBound(cfg, s, s', bound);
    SteadyKeeps(cfg, s, s', bound);
  }

  lemma SpawnSteady(cfg: Config, s: State, s': State, task: TaskId, pid: Pid, r: Resource)
    requires SpawnStep(s, s', task, pid)
    ensures Steady(cfg, s, s', r)
  {
    forall slot | slot in Occupied(cfg, s', r) ensures slot in Occupied(cfg, s, r) && SameSlot(s, s', slot) {
      OccupiedSlot(cfg, s', r, slot);
      OccupiedSlot(cfg, s, r, slot);
    }
  }

  // --------------------------------------------------- a process goes on record

  /** The reservation gives way to the worker it had started. */
  lemma RecordOccupied(cfg: Config, s: State, s': State, task: TaskId, r: Resource)
    requires RecordStep(s, s', task)
    ensures forall slot :: slot in Occupied(cfg, s', r) ==>
              && slot != Reservation(task)
              && (slot in Occupied(cfg, s, r)
                  || (slot == Worker(s.cards[task].spawned.value) && Reservation(task) in Occupied(cfg, s, r)))
  {
    forall slot | slot in Occupied(cfg, s', r)
      ensures && slot != Reservation(task)
              && (slot in Occupied(cfg, s, r)
                  || (slot == Worker(s.cards[task].spawned.value) && Reservation(task) in Occupied(cfg, s, r)))
    {
      OccupiedSlot(cfg, s', r, slot);
      OccupiedSlot(cfg, s, r, slot);
      OccupiedSlot(cfg, s, r, Reservation(task));
    }
  }

  lemma RecordBound(cfg: Config, s: State, s': State, task: TaskId, r: Resource)
    requires RecordStep(s, s', task)
    ensures |Occupied(cfg, s', r)| <= |Occupied(cfg, s, r)|
  {
    hide Occupied;
    RecordOccupied(cfg, s, s', task, r);
    var old_, new_ := Occupied(cfg, s, r), Occupied(cfg, s', r);
    var worker := Worker(s.cards[task].spawned.value);
    if Reservation(task) in old_ {
      assert new_ <= (old_ - {Reservation(task)}) + {worker};
      SubsetCardinality(new_, (old_ - {Reservation(task)}) + {worker});
    } else {
      SubsetCardinality(new_, old_);
    }
  }

  lemma RecordHistory(cfg: Config, s: State, s': State, task: TaskId)
    requires HistoryInv(cfg, s) && RecordStep(s, s', task)
    ensures HistoryInv(cfg, s')
  {
    hide OnRecord;
    assert RunMatches(s, task);
    var k, pid := s.cards[task].run, s.cards[task].spawned;
    RunsUpdate(s.runs, k, s.runs[k].(pid := pid));
    RecordAt(s'.runs, k, pid.value, task, s.cards[task].assignee, s.cards[task].board);
    OneCardHistory(cfg, s, s', task);
  }

  lemma RecordAt(runs: seq<Run>, i: nat, pid: Pid, task: TaskId, name: string, board: BoardId)
    requires i < |runs| && IsRecord(runs[i], pid, task, name, board)
    ensures OnRecord(runs, pid, task, name, board)
  {}

  lemma RecordKeeps(cfg: Config, s: State, s': State, task: TaskId, bound: Resource -> nat)
    requires Inv(cfg, s, bound) && RecordStep(s, s', task)
    ensures Inv(cfg, s', bound)
  {
    hide Occupied, HistoryInv, StageInv;
    SameStages(cfg, s, s');
    RecordHistory(cfg, s, s', task);
    forall r ensures |Occupied(cfg, s', r)| <= bound(r) {
      RecordBound(cfg, s, s', task, r);
    }
    forall d, slot | StageOf(s', d).Scanning? && slot in Occupied(cfg, s', StageOf(s', d).resource)
                     && SlotOnBoard(s', slot, StageOf(s', d).scanned)
      ensures Counted(s', StageOf(s', d).slots, slot)
    {
      RecordScan(cfg, s, s', task, d, slot);
    }
  }

  lemma RecordScan(cfg: Config, s: State, s': State, task: TaskId, d: Dispatcher, slot: Slot)
    requires ScanInv(cfg, s) && RecordStep(s, s', task) && StageOf(s, d).Scanning?
    requires slot in Occupied(cfg, s', StageOf(s, d).resource) && SlotOnBoard(s', slot, StageOf(s, d).scanned)
    ensures Counted(s', StageOf(s, d).slots, slot)
  {
    var r := StageOf(s, d).resource;
    RecordOccupied(cfg, s, s', task, r);
    OccupiedSlot(cfg, s', r, slot);
    if slot in Occupied(cfg, s, r) {
      assert SlotOnBoard(s, slot, StageOf(s, d).scanned);
      assert Counted(s, StageOf(s, d).slots, slot);
    } else {
      assert slot.pid == s.cards[task].spawned.value && s'.procs[slot.pid].taskId == task by {
        OccupiedSlot(cfg, s, r, slot);
      }
      assert SlotOnBoard(s, Reservation(task), StageOf(s, d).scanned);
      assert Counted(s, StageOf(s, d).slots, Reservation(task));
    }
  }

  // ------------------------------------------------------------- a gated claim

  /** What the scan counted a slot as. */
  function CountedAs(s: State, slots: set<Slot>, slot: Slot): (counted: Slot) {
    if slot !in slots && slot.Worker? && slot.pid in s.procs && s.procs[slot.pid].HermesWorker?
    then Reservation(s.procs[slot.pid].taskId) else slot
  }

  /** Different slots are counted as different ones. */
  lemma CountedApart(cfg: Config, s: State, r: Resource, slots: set<Slot>, x: Slot, y: Slot)
    requires x in Occupied(cfg, s, r) && y in Occupied(cfg, s, r)
    requires Counted(s, slots, x) && Counted(s, slots, y) && CountedAs(s, slots, x) == CountedAs(s, slots, y)
    ensures x == y
  {
    OccupiedSlot(cfg, s, r, x);
    OccupiedSlot(cfg, s, r, y);
    hide Occupied, Matches;
  }

  /** A finished scan never undercounts. */
  lemma FullScanCounts(cfg: Config, s: State, d: Dispatcher)
    requires ScanInv(cfg, s) && BoardsInv(cfg, s)
    requires StageOf(s, d).Scanning? && StageOf(s, d).scanned == cfg.boards
    ensures |Occupied(cfg, s, StageOf(s, d).resource)| <= |StageOf(s, d).slots|
  {
    hide Occupied, Matches;
    var r, slots := StageOf(s, d).resource, StageOf(s, d).slots;
    var all := Occupied(cfg, s, r);
    forall slot | slot in all ensures Counted(s, slots, slot) && CountedAs(s, slots, slot) in slots {
      OccupiedSlot(cfg, s, r, slot);
      assert SlotOnBoard(s, slot, StageOf(s, d).scanned);
    }
    forall x, y | x in all && y in all && CountedAs(s, slots, x) == CountedAs(s, slots, y) ensures x == y {
      CountedApart(cfg, s, r, slots, x, y);
    }
    hide Counted, CountedAs, ScanInv;
    InjectionCardinality(all, slots, slot => CountedAs(s, slots, slot));
  }

  lemma ClaimOccupied(cfg: Config, s: State, s': State, d: Dispatcher, r: Resource)
    requires StageInv(cfg, s) && ClaimStep(cfg, s, s', d)
    ensures Occupied(cfg, s', r) == if r == StageOf(s, d).resource
                                    then Occupied(cfg, s, r) + {Reservation(StageOf(s, d).task)}
                                    else Occupied(cfg, s, r)
  {
    var task := StageOf(s, d).task;
    assert !StageOf(s, d).Idle?;
    assert Matches(cfg, r, s.cards[task].assignee) <==> r == StageOf(s, d).resource;
    forall slot
      ensures slot in Occupied(cfg, s', r)
              <==> slot in Occupied(cfg, s, r) || (r == StageOf(s, d).resource && slot == Reservation(task))
    {
      OccupiedSlot(cfg, s', r, slot);
      OccupiedSlot(cfg, s, r, slot);
    }
  }

  /** The claim that a finished scan allows stays within the capacity. */
  lemma ClaimFits(cfg: Config, s: State, s': State, d: Dispatcher)
    requires StageInv(cfg, s) && ScanInv(cfg, s) && BoardsInv(cfg, s) && ClaimStep(cfg, s, s', d)
    ensures |Occupied(cfg, s', StageOf(s, d).resource)| <= cfg.capacity(StageOf(s, d).resource)
  {
    hide Occupied, ScanInv;
    ClaimOccupied(cfg, s, s', d, StageOf(s, d).resource);
    FullScanCounts(cfg, s, d);
  }

  lemma ClaimSteady(cfg: Config, s: State, s': State, d: Dispatcher, r: Resource)
    requires StageInv(cfg, s) && ClaimStep(cfg, s, s', d) && r != StageOf(s, d).resource
    ensures Steady(cfg, s, s', r)
  {
    hide Occupied;
    assert !StageOf(s, d).Idle?;
    OneCardSteady(cfg, s, s', StageOf(s, d).task, r);
  }

  lemma ClaimKeeps(cfg: Config, s: State, s': State, d: Dispatcher, bound: Resource -> nat)
    requires Inv(cfg, s, bound) && ClaimStep(cfg, s, s', d)
    requires forall r :: cfg.capacity(r) <= bound(r)
    ensures Inv(cfg, s', bound)
  {
    hide Occupied, ScanInv, Steady, OnRecord, RunsGrow;
    var stage := StageOf(s, d);
    assert s.locks[stage.resource] == d;
    StagesKeep(cfg, s, s', d);
    RunsAppend(s.runs, Run(s.cards[stage.task].board, stage.task, s.cards[stage.task].assignee, None, false));
    OneCardHistory(cfg, s, s', stage.task);
    forall r ensures |Occupied(cfg, s', r)| <= bound(r) {
      ClaimOccupied(cfg, s, s', d, r);
      if r == stage.resource { ClaimFits(cfg, s, s', d); }
    }
    forall c | StageOf(s', c).Scanning?
      ensures StageOf(s', c) == StageOf(s, c) && Steady(cfg, s, s', StageOf(s, c).resource)
    {
      assert s.locks[StageOf(s, c).resource] == c;
      ClaimSteady(cfg, s, s', d, StageOf(s, c).resource);
    }
    SteadyKeeps(cfg, s, s', bound);
  }
}
