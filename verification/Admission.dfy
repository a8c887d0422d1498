/** Counting the slots of a worker resource across sibling boards. */
module ResourceAdmission {
  import opened Prelude

  type Resource = string
  type BoardId = string
  type Pid = int

  /** A `task_runs` row of a board, in id order.  `profile` is empty when the
      column is null; the card itself may be gone. */
  datatype Run = Run(board: BoardId, taskId: TaskId, profile: string, pid: Option<Pid>, ended: bool)

  /** A `tasks` row.  `spawned` is the process its latest claim started, known to
      the dispatcher before the PID column is written. */
  datatype Card = Card(board: BoardId, status: string, assignee: string, pid: Option<Pid>, spawned: Option<Pid>, run: nat)

  datatype Process = HermesWorker(taskId: TaskId) | OtherProcess

  /** `_worker_identity`: verified, refuted, or the command line cannot be read. */
  datatype Identity = Mine | NotMine | Unverifiable

  type Verifier = (Pid, TaskId) -> Identity

  /** A readable command line is judged rightly. */
  ghost predicate Honest(procs: map<Pid, Process>, verify: Verifier) {
    forall p, t :: p in procs ==>
      && (verify(p, t) == Mine ==> procs[p] == HermesWorker(t))
      && (verify(p, t) == NotMine ==> procs[p] != HermesWorker(t))
  }

  /** The resource groups that an assignee matches, and the slots of each group. */
  datatype Config = Config(boards: set<BoardId>, groups: string -> set<Resource>, capacity: Resource -> nat)

  datatype Slot = Reservation(taskId: TaskId) | Worker(pid: Pid)

  predicate Matches(cfg: Config, r: Resource, name: string) {
    name != "" && r in cfg.groups(name)
  }

  /** `resource_for_assignee`: no group is no gate, several are refused. */
  datatype Policy = Ungated | Gated(resource: Resource) | Ambiguous

  function PolicyFor(cfg: Config, name: string): (policy: Policy)
    ensures policy.Gated? ==> name != "" && cfg.groups(name) == {policy.resource}
    ensures policy.Ungated? <==> name == "" || cfg.groups(name) == {}
  {
    if name == "" || cfg.groups(name) == {} then Ungated
    else if |cfg.groups(name)| == 1 then
      SingletonGroup(cfg.groups(name));
      var r :| r in cfg.groups(name); Gated(r)
    else Ambiguous
  }

  lemma SingletonGroup(s: set<Resource>)
    requires |s| == 1
    ensures forall a, b :: a in s && b in s ==> a == b
    ensures forall a :: a in s ==> s == {a}
  {
    forall a | a in s ensures s == {a} {
      assert |s - {a}| == 0;
      assert s == (s - {a}) + {a};
    }
  }

  /** Running without a recorded process: a claim on its way to a spawn. */
  predicate Reserved(card: Card) {
    card.status == "running" && card.pid.None?
  }

  function RunName(cards: map<TaskId, Card>, run: Run): string {
    if run.profile != "" then run.profile
    else if run.taskId in cards then cards[run.taskId].assignee
    else ""
  }

  predicate OnBoard(cards: map<TaskId, Card>, board: BoardId, id: TaskId) {
    id in cards && cards[id].board == board
  }

  /** A run row that still occupies a slot. */
  predicate OccupyingRun(cfg: Config, r: Resource, board: BoardId, cards: map<TaskId, Card>,
                         procs: map<Pid, Process>, verify: Verifier, run: Run) {
    && run.board == board
    && run.pid.Some? && run.pid.value in procs
    && Matches(cfg, r, RunName(cards, run))
    && verify(run.pid.value, run.taskId) != NotMine
  }

  predicate OccupyingCard(cfg: Config, r: Resource, board: BoardId, cards: map<TaskId, Card>,
                          procs: map<Pid, Process>, id: TaskId) {
    && OnBoard(cards, board, id) && cards[id].status == "running"
    && Matches(cfg, r, cards[id].assignee)
    && (cards[id].pid.Some? ==> cards[id].pid.value in procs)
  }

  function CardSlot(id: TaskId, card: Card): Slot {
    if card.pid.Some? then Worker(card.pid.value) else Reservation(id)
  }

  function RunSlots(cfg: Config, r: Resource, board: BoardId, cards: map<TaskId, Card>, runs: seq<Run>,
                    procs: map<Pid, Process>, verify: Verifier): (slots: set<Slot>)
    ensures forall s :: s in slots ==> s.Worker?
  {
    set run | run in runs && OccupyingRun(cfg, r, board, cards, procs, verify, run) :: Worker(run.pid.value)
  }

  function CardSlots(cfg: Config, r: Resource, board: BoardId, cards: map<TaskId, Card>, ids: set<TaskId>,
                     procs: map<Pid, Process>): (slots: set<Slot>)
  {
    set id | id in ids && OccupyingCard(cfg, r, board, cards, procs, id) :: CardSlot(id, cards[id])
  }

  /** The slots that one board occupies, read off its tables and the process table. */
  function SlotsOn(cfg: Config, r: Resource, board: BoardId, cards: map<TaskId, Card>, runs: seq<Run>,
                   procs: map<Pid, Process>, verify: Verifier): (slots: set<Slot>)
  {
    RunSlots(cfg, r, board, cards, runs, procs, verify) + CardSlots(cfg, r, board, cards, cards.Keys, procs)
  }

  /** The name a run counts under: its own profile, or that of the card it is for. */
  ghost predicate RunsUnder(cards: map<TaskId, Card>, run: Run, name: string) {
    name != "" && (run.profile == name || (run.profile == "" && run.taskId in cards && cards[run.taskId].assignee == name))
  }

  /** A worker's slot is taken on a board exactly when one of its run rows names
      the live process and counts under a matching name, unless the process is
      known to be another; or when a running card of the board names it.  A
      reservation is a running card without a process. */
  lemma SlotsOnWhen(cfg: Config, r: Resource, board: BoardId, cards: map<TaskId, Card>, runs: seq<Run>,
                    procs: map<Pid, Process>, verify: Verifier, p: Pid, t: TaskId)
    ensures Worker(p) in SlotsOn(cfg, r, board, cards, runs, procs, verify) <==>
              && p in procs
              && ( (exists run, name :: run in runs && run.board == board && run.pid == Some(p)
                                        && verify(p, run.taskId) != NotMine && RunsUnder(cards, run, name) && r in cfg.groups(name))
                || (exists id :: id in cards && cards[id].board == board && cards[id].status == "running" && cards[id].pid == Some(p)
                                 && cards[id].assignee != "" && r in cfg.groups(cards[id].assignee)))
    ensures Reservation(t) in SlotsOn(cfg, r, board, cards, runs, procs, verify) <==>
              && t in cards && cards[t].board == board && cards[t].status == "running" && cards[t].pid.None?
              && cards[t].assignee != "" && r in cfg.groups(cards[t].assignee)
  {
    RunSlotsWhen(cfg, r, board, cards, runs, procs, verify, p);
    CardSlotsWhen(cfg, r, board, cards, procs, p, t);
    hide RunSlots, CardSlots, RunsUnder;
  }

  lemma RunSlotsWhen(cfg: Config, r: Resource, board: BoardId, cards: map<TaskId, Card>, runs: seq<Run>,
                     procs: map<Pid, Process>, verify: Verifier, p: Pid)
    ensures Worker(p) in RunSlots(cfg, r, board, cards, runs, procs, verify) <==>
              && p in procs
              && exists run, name :: run in runs && run.board == board && run.pid == Some(p)
                                     && verify(p, run.taskId) != NotMine && RunsUnder(cards, run, name) && r in cfg.groups(name)
  {
    if Worker(p) in RunSlots(cfg, r, board, cards, runs, procs, verify) {
      var run :| run in runs && OccupyingRun(cfg, r, board, cards, procs, verify, run) && run.pid.value == p;
      assert RunsUnder(cards, run, RunName(cards, run));
    }
    if run, name :| run in runs && run.board == board && run.pid == Some(p) && p in procs
                    && verify(p, run.taskId) != NotMine && RunsUnder(cards, run, name) && r in cfg.groups(name) {
      assert OccupyingRun(cfg, r, board, cards, procs, verify, run);
    }
  }

  lemma CardSlotsWhen(cfg: Config, r: Resource, board: BoardId, cards: map<TaskId, Card>, procs: map<Pid, Process>, p: Pid, t: TaskId)
    ensures Worker(p) in CardSlots(cfg, r, board, cards, cards.Keys, procs) <==>
              && p in procs
              && exists id :: id in cards && cards[id].board == board && cards[id].status == "running" && cards[id].pid == Some(p)
                              && cards[id].assignee != "" && r in cfg.groups(cards[id].assignee)
    ensures Reservation(t) in CardSlots(cfg, r, board, cards, cards.Keys, procs) <==>
              && t in cards && cards[t].board == board && cards[t].status == "running" && cards[t].pid.None?
              && cards[t].assignee != "" && r in cfg.groups(cards[t].assignee)
  {
    if Worker(p) in CardSlots(cfg, r, board, cards, cards.Keys, procs) {
      var id :| id in cards && OccupyingCard(cfg, r, board, cards, procs, id) && CardSlot(id, cards[id]) == Worker(p);
    }
    if id :| id in cards && cards[id].board == board && cards[id].status == "running" && cards[id].pid == Some(p) && p in procs
             && cards[id].assignee != "" && r in cfg.groups(cards[id].assignee) {
      assert OccupyingCard(cfg, r, board, cards, procs, id) && CardSlot(id, cards[id]) == Worker(p);
    }
    if t in cards && cards[t].board == board && cards[t].status == "running" && cards[t].pid.None?
       && cards[t].assignee != "" && r in cfg.groups(cards[t].assignee) {
      assert OccupyingCard(cfg, r, board, cards, procs, t) && CardSlot(t, cards[t]) == Reservation(t);
    }
  }

  function SlotSet(active: seq<Slot>): (slots: set<Slot>) {
    set s | s in active
  }

  ghost predicate Distinct(active: seq<Slot>) {
    forall i, j :: 0 <= i < j < |active| ==> active[i] != active[j]
  }

  /** The list has as many entries as it has slots. */
  lemma {:induction false} DistinctCount(active: seq<Slot>)
    requires Distinct(active)
    ensures |active| == |SlotSet(active)|
  {
    if active != [] {
      var n := |active| - 1;
      DistinctCount(active[..n]);
      assert SlotSet(active) == SlotSet(active[..n]) + {active[n]};
      assert active[n] !in active[..n];
    }
  }

  ghost predicate SeenPids(active: seq<Slot>, seen: set<Pid>) {
    forall p :: p in seen <==> Worker(p) in active
  }

  /** The list built so far: distinct slots, with the processes it mentions. */
  ghost predicate ListInv(active: seq<Slot>, seen: set<Pid>, slots: set<Slot>) {
    Distinct(active) && SeenPids(active, seen) && SlotSet(active) == slots
  }

  lemma ListOneMore(active: seq<Slot>, seen: set<Pid>, slots: set<Slot>, s: Slot)
    requires ListInv(active, seen, slots) && s !in active
    ensures ListInv(active + [s], if s.Worker? then seen + {s.pid} else seen, slots + {s})
  {
    assert forall x :: x in active + [s] <==> x in active || x == s;
  }

  lemma ListAgain(active: seq<Slot>, seen: set<Pid>, slots: set<Slot>, s: Slot)
    requires ListInv(active, seen, slots) && s in active
    ensures ListInv(active, seen, slots + {s})
  {
    assert s in SlotSet(active);
    assert slots + {s} == slots;
  }

  /** The run rows of one board, newest first. */
  method ScanRuns(cfg: Config, r: Resource, board: BoardId, cards: map<TaskId, Card>, runs: seq<Run>,
                  procs: map<Pid, Process>, verify: Verifier, active0: seq<Slot>, seen0: set<Pid>)
    returns (active: seq<Slot>, seen: set<Pid>)
    requires ListInv(active0, seen0, SlotSet(active0))
    ensures ListInv(active, seen, SlotSet(active0) + RunSlots(cfg, r, board, cards, runs, procs, verify))
  {
    active, seen := active0, seen0;
    var i := |runs|;
    assert SlotSet(active0) + RunSlots(cfg, r, board, cards, runs[i..], procs, verify) == SlotSet(active0);
    while i > 0
      invariant 0 <= i <= |runs|
      invariant ListInv(active, seen, SlotSet(active0) + RunSlots(cfg, r, board, cards, runs[i..], procs, verify))
    {
      i := i - 1;
      var run := runs[i];
      ghost var before := SlotSet(active0) + RunSlots(cfg, r, board, cards, runs[i + 1..], procs, verify);
      ghost var after := SlotSet(active0) + RunSlots(cfg, r, board, cards, runs[i..], procs, verify);
      assert runs[i..] == [run] + runs[i + 1..];
      if !OccupyingRun(cfg, r, board, cards, procs, verify, run) {
        assert after == before;
        continue;
      }
      var slot := Worker(run.pid.value);
      assert after == before + {slot} by {
        RunSlotsCons(cfg, r, board, cards, run, runs[i + 1..], procs, verify);
      }
      if run.pid.value in seen {
        ListAgain(active, seen, before, slot);
        continue;
      }
      ListOneMore(active, seen, before, slot);
      seen := seen + {run.pid.value};
      active := active + [slot];
    }
    assert runs[0..] == runs;
  }

  lemma RunSlotsCons(cfg: Config, r: Resource, board: BoardId, cards: map<TaskId, Card>, run: Run, runs: seq<Run>,
                     procs: map<Pid, Process>, verify: Verifier)
    requires OccupyingRun(cfg, r, board, cards, procs, verify, run)
    ensures RunSlots(cfg, r, board, cards, [run] + runs, procs, verify)
            == RunSlots(cfg, r, board, cards, runs, procs, verify) + {Worker(run.pid.value)}
  {
    assert run in [run] + runs;
    assert forall x :: x in [run] + runs <==> x == run || x in runs;
  }

  /** The running cards of one board: a recorded live process, or a reservation. */
  method ScanCards(cfg: Config, r: Resource, board: BoardId, cards: map<TaskId, Card>,
                   procs: map<Pid, Process>, active0: seq<Slot>, seen0: set<Pid>)
    returns (active: seq<Slot>, seen: set<Pid>)
    requires ListInv(active0, seen0, SlotSet(active0))
    ensures ListInv(active, seen, SlotSet(active0) + CardSlots(cfg, r, board, cards, cards.Keys, procs))
  {
    active, seen := active0, seen0;
    var todo := cards.Keys;
    assert SlotSet(active0) + CardSlots(cfg, r, board, cards, cards.Keys - todo, procs) == SlotSet(active0);
    while todo != {}
      invariant todo <= cards.Keys
      invariant ListInv(active, seen, SlotSet(active0) + CardSlots(cfg, r, board, cards, cards.Keys - todo, procs))
    {
      var id :| id in todo;
      ghost var done := cards.Keys - todo;
      ghost var before := SlotSet(active0) + CardSlots(cfg, r, board, cards, done, procs);
      todo := todo - {id};
      assert cards.Keys - todo == done + {id};
      ghost var after := SlotSet(active0) + CardSlots(cfg, r, board, cards, done + {id}, procs);
      if !OccupyingCard(cfg, r, board, cards, procs, id) {
        assert after == before;
        continue;
      }
      var slot := CardSlot(id, cards[id]);
      assert after == before + {slot};
      if slot in active {
        ListAgain(active, seen, before, slot);
        continue;
      }
      ListOneMore(active, seen, before, slot);
      if slot.Worker? {
        seen := seen + {slot.pid};
      }
      active := active + [slot];
    }
    assert cards.Keys - todo == cards.Keys;
  }

  /** `_active_resource_workers`, over boards that each present their own tables.
      The list counts every slot of every board once. */
  method ActiveResourceWorkers(cfg: Config, r: Resource, boards: seq<BoardId>, cards: map<TaskId, Card>, runs: seq<Run>,
                               procs: map<Pid, Process>, verify: Verifier)
    returns (active: seq<Slot>)
    ensures |active| == |AllSlots(cfg, r, boards, cards, runs, procs, verify)|
    ensures SlotSet(active) == AllSlots(cfg, r, boards, cards, runs, procs, verify)
  {
    active := [];
    var seen: set<Pid> := {};
    for k := 0 to |boards|
      invariant ListInv(active, seen, AllSlots(cfg, r, boards[..k], cards, runs, procs, verify))
    {
      var withRuns, seenRuns := ScanRuns(cfg, r, boards[k], cards, runs, procs, verify, active, seen);
      var next, nextSeen := ScanCards(cfg, r, boards[k], cards, procs, withRuns, seenRuns);
      assert boards[..k + 1][..k] == boards[..k];
      active, seen := next, nextSeen;
    }
    assert boards[..|boards|] == boards;
    DistinctCount(active);
  }

  function AllSlots(cfg: Config, r: Resource, boards: seq<BoardId>, cards: map<TaskId, Card>, runs: seq<Run>,
                    procs: map<Pid, Process>, verify: Verifier): (slots: set<Slot>)
  {
    if boards == [] then {}
    else AllSlots(cfg, r, boards[..|boards| - 1], cards, runs, procs, verify)
         + SlotsOn(cfg, r, boards[|boards| - 1], cards, runs, procs, verify)
  }
}
