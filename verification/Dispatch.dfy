/** One tick of the edge's rework lane: claim the oldest pending rework of a
    board and start its worker, under the board's dispatch lock. */
module ReworkDispatch {
  import opened Prelude
  import opened ReworkRounds

  /** A `tasks` row of the board. */
  datatype TaskRow = TaskRow(status: string, assignee: Option<string>, lock: Option<string>, pid: Option<int>, failures: nat)

  /** What the wake knows about a task: the event it was built from, the labels of
      its PR if they were read, and whose PR it is; or that building it failed. */
  datatype Context = Broken | Context(event: Entry, labels: Option<set<string>>, repository: string, pr: int, ref: GithubTaskRef)

  datatype Settings = Settings(maxInProgress: int, defaultAssignee: Option<string>, failureLimit: nat)

  datatype SpawnResult = SpawnRaises | SpawnReturns(pid: Option<int>)

  /** Everything outside the tick that can go one way or another. */
  datatype World = World(profileExists: Option<bool>, claimWins: bool, claimNoted: bool, reclaimWorks: bool,
                         labelsProjected: Option<bool>, workspaceFound: bool, pathsStored: bool,
                         spawn: SpawnResult, pidStored: bool, spawnNoted: bool)

  datatype Exit =
    | BoardBusy | NothingPending | ContextUnavailable | StaleContext | InvalidEvent | WorkingLabelPresent | PrWorkerActive
    | Unassigned | SpawnPredicted | ProfileMissing | ClaimFailed | ClaimNotNoted | ReclaimFailed | LabelsNotProjected
    | WorkspaceNotFound(autoBlocked: bool) | SpawnFailed(autoBlocked: bool) | Crashed | WorkerSpawned

  const WORKING_LABEL := "agent-working"

  function Running(rows: map<TaskId, TaskRow>): (ids: set<TaskId>) {
    set id | id in rows && rows[id].status == "running"
  }

  lemma RunningAre(rows: map<TaskId, TaskRow>)
    ensures Running(rows) == set id | id in rows && rows[id].status == "running"
  {}

  /** One more row runs at most, and only `id` can be it. */
  lemma RunningGrowsByOne(before: map<TaskId, TaskRow>, after: map<TaskId, TaskRow>, id: TaskId)
    requires before.Keys == after.Keys && forall t :: t in before && t != id ==> after[t] == before[t]
    ensures |Running(after)| <= |Running(before)| + 1
    ensures (id in after && after[id].status == "running" && before[id].status != "running") || |Running(after)| <= |Running(before)|
  {
    if id in after && after[id].status == "running" {
      SubsetCardinality(Running(after), Running(before) + {id});
      if before[id].status == "running" { SubsetCardinality(Running(after), Running(before)); }
    } else {
      SubsetCardinality(Running(after), Running(before));
    }
  }

  /** The governing event kinds for which the lane owns a READY row. */
  predicate OwnedByLane(kind: string, retryable: bool, normalized: bool) {
    || (kind == "github_pr_rework_projection_failure" && retryable)
    || kind == "github_pr_rework"
    || (kind == "changes_requested" && normalized)
  }

  /** The newest governing kind of a task, and whether a failed projection may be retried. */
  datatype Governance = Governance(kind: string, retryable: bool)

  predicate IsPending(rows: map<TaskId, TaskRow>, governance: map<TaskId, Governance>, selected: Option<set<TaskId>>,
                      normalized: set<TaskId>, id: TaskId) {
    && id in rows && rows[id].status == "ready" && rows[id].lock.None?
    && (selected.Some? ==> id in selected.value)
    && id in governance && OwnedByLane(governance[id].kind, governance[id].retryable, id in normalized)
  }

  /** The first pending row, in age order. */
  function Oldest(rows: map<TaskId, TaskRow>, order: seq<TaskId>, governance: map<TaskId, Governance>,
                  selected: Option<set<TaskId>>, normalized: set<TaskId>): (id: Option<TaskId>)
    ensures id.Some? ==> id.value in order && IsPending(rows, governance, selected, normalized, id.value)
    ensures id.None? <==> forall t :: t in order ==> !IsPending(rows, governance, selected, normalized, t)
  {
    if order == [] then None
    else if IsPending(rows, governance, selected, normalized, order[0]) then Some(order[0])
    else
      assert order == [order[0]] + order[1..];
      Oldest(rows, order[1..], governance, selected, normalized)
  }

  /** The context was built from the round in force, and no one else is at work. */
  predicate IsCurrent(context: Option<Option<Context>>, latest: Option<Entry>, guardLabels: bool, owners: map<(string, int), TaskId>, task: TaskId) {
    && context.Some? && context.value.Some? && context.value.value.Context?
    && var c := context.value.value;
       && latest == Some(c.event) && Governing(c.event)
       && c.pr > 0 && c.ref.issueNumber > 0 && ValidRound(c.event.round, Some(c.ref), Some(c.pr))
       && (guardLabels && c.labels.Some? ==>
             WORKING_LABEL !in c.labels.value && ((c.repository, c.pr) in owners ==> owners[(c.repository, c.pr)] == task))
  }

  /** The guards that need no claim, in their order; none of them fires on `Ok`. */
  function Admission(context: Option<Option<Context>>, latest: Option<Entry>, normalizedDryRun: bool, guardLabels: bool,
                     owners: map<(string, int), TaskId>, bodyRef: Option<GithubTaskRef>, task: TaskId): (r: Result<Option<Entry>, Exit>)
    ensures r.Err? ==> r.error in {ContextUnavailable, StaleContext, InvalidEvent, WorkingLabelPresent, PrWorkerActive}
    ensures r.Ok? && !normalizedDryRun ==>
              && r.value.Some? && Governing(r.value.value)
              && (context.Some? ==> latest == r.value)
    ensures r.Ok? && guardLabels && context.Some? && context.value.Some? && context.value.value.Context?
            && context.value.value.labels.Some? ==>
              && WORKING_LABEL !in context.value.value.labels.value
              && ((context.value.value.repository, context.value.value.pr) in owners ==>
                    owners[(context.value.value.repository, context.value.value.pr)] == task)
    ensures IsCurrent(context, latest, guardLabels, owners, task) && !normalizedDryRun ==> r.Ok?
  {
    var known := context.Some? && context.value.Some? && context.value.value.Context?;
    if context.Some? && !normalizedDryRun && !known then Err(ContextUnavailable)
    else if context.Some? && !normalizedDryRun && latest != Some(context.value.value.event) then Err(StaleContext)
    else
      var event := if context.Some? && !normalizedDryRun then latest
                   else if known then Some(context.value.value.event)
                   else latest;
      var ref := if known && context.value.value.pr > 0 && context.value.value.ref.issueNumber > 0
                 then Some(context.value.value.ref) else bodyRef;
      var pr := if known && context.value.value.pr > 0 && context.value.value.ref.issueNumber > 0
                then Some(context.value.value.pr) else None;
      if !normalizedDryRun && (event.None? || !Governing(event.value) || !ValidRound(event.value.round, ref, pr)) then Err(InvalidEvent)
      else if guardLabels && known && context.value.value.labels.Some? && WORKING_LABEL in context.value.value.labels.value
      then Err(WorkingLabelPresent)
      else if guardLabels && known && context.value.value.labels.Some?
              && (context.value.value.repository, context.value.value.pr) in owners
              && owners[(context.value.value.repository, context.value.value.pr)] != task
      then Err(PrWorkerActive)
      else Ok(event)
  }

  /** The context knows the card's pull request and Issue. */
  predicate Bound(context: Option<Option<Context>>) {
    && context.Some? && context.value.Some? && context.value.value.Context?
    && context.value.value.pr > 0 && context.value.value.ref.issueNumber > 0
  }

  /** The event in force is valid for the card and the one its context was built from. */
  ghost predicate EventHolds(context: Option<Option<Context>>, latest: Option<Entry>, bodyRef: Option<GithubTaskRef>) {
    && (context.Some? ==> context.value.Some? && context.value.value.Context? && latest == Some(context.value.value.event))
    && latest.Some? && Governing(latest.value)
    && if Bound(context) then ValidRound(latest.value.round, Some(context.value.value.ref), Some(context.value.value.pr))
       else ValidRound(latest.value.round, bodyRef, None)
  }

  /** The labels of the card's pull request were read. */
  predicate LabelsRead(context: Option<Option<Context>>) {
    context.Some? && context.value.Some? && context.value.value.Context? && context.value.value.labels.Some?
  }

  ghost predicate ForeignOwner(context: Option<Option<Context>>, owners: map<(string, int), TaskId>, task: TaskId)
    requires LabelsRead(context)
  {
    var c := context.value.value;
    (c.repository, c.pr) in owners && owners[(c.repository, c.pr)] != task
  }

  /** A card is admitted exactly when its event holds, its pull request does not
      show a worker, and no other card's worker is on it; and each refusal of the
      last two comes exactly when it should. */
  lemma AdmittedWhen(context: Option<Option<Context>>, latest: Option<Entry>, normalizedDryRun: bool, guardLabels: bool,
                     owners: map<(string, int), TaskId>, bodyRef: Option<GithubTaskRef>, task: TaskId)
    ensures var r := Admission(context, latest, normalizedDryRun, guardLabels, owners, bodyRef, task);
            var holds := normalizedDryRun || EventHolds(context, latest, bodyRef);
            var guarded := guardLabels && LabelsRead(context);
            && (r.Err? && r.error in {ContextUnavailable, StaleContext, InvalidEvent} <==> !holds)
            && (r == Err(WorkingLabelPresent) <==> holds && guarded && "agent-working" in context.value.value.labels.value)
            && (r == Err(PrWorkerActive) <==>
                  holds && guarded && "agent-working" !in context.value.value.labels.value && ForeignOwner(context, owners, task))
            && (r.Ok? <==>
                  holds && (guarded ==> "agent-working" !in context.value.value.labels.value && !ForeignOwner(context, owners, task)))
    ensures var r := Admission(context, latest, normalizedDryRun, guardLabels, owners, bodyRef, task);
            && (r == Err(ContextUnavailable) <==>
                  !normalizedDryRun && context.Some? && !(context.value.Some? && context.value.value.Context?))
            && (r.Ok? ==> r.value == if normalizedDryRun && context.Some? && context.value.Some? && context.value.value.Context?
                                     then Some(context.value.value.event) else latest)
            && (r == Err(StaleContext) <==>
                  && !normalizedDryRun && context.Some? && context.value.Some? && context.value.value.Context?
                  && latest != Some(context.value.value.event))
  {
    hide ValidRound;
  }

  class Lane {
    var rows: map<TaskId, TaskRow>
    /** Dispatch provenance written so far: task and phase. */
    var notes: seq<(TaskId, string)>
    /** Workers started so far. */
    var started: nat

    constructor (rows: map<TaskId, TaskRow>)
      ensures this.rows == rows && notes == [] && started == 0
    {
      this.rows, notes, started := rows, [], 0;
    }

    /** Only the row of `id` may differ from `before`. */
    ghost predicate OnlyRow(before: map<TaskId, TaskRow>, id: TaskId)
      reads this
    {
      rows.Keys == before.Keys && forall t :: t in before && t != id ==> rows[t] == before[t]
    }

    /** `_pending_rework_tasks`: the oldest first. */
    method PendingRework(order: seq<TaskId>, governance: map<TaskId, Governance>, selected: Option<set<TaskId>>, normalized: set<TaskId>)
      returns (pending: seq<TaskId>)
      ensures forall id :: id in pending <==> id in order && IsPending(rows, governance, selected, normalized, id)
      ensures Oldest(rows, order, governance, selected, normalized) == if pending == [] then None else Some(pending[0])
      ensures forall id :: id in pending <==>
                && id in order && id in rows && rows[id].status == "ready" && rows[id].lock.None?
                && (selected.None? || id in selected.value) && id in governance
                && ( governance[id].kind == "github_pr_rework"
                  || (governance[id].kind == "changes_requested" && id in normalized)
                  || (governance[id].kind == "github_pr_rework_projection_failure" && governance[id].retryable))
    {
      pending := [];
      for k := 0 to |order|
        invariant forall id :: id in pending <==> id in order[..k] && IsPending(rows, governance, selected, normalized, id)
        invariant Oldest(rows, order, governance, selected, normalized)
               == if pending == [] then Oldest(rows, order[k..], governance, selected, normalized) else Some(pending[0])
      {
        assert order[..k + 1] == order[..k] + [order[k]];
        assert order[k..][0] == order[k] && order[k..][1..] == order[k + 1..];
        if IsPending(rows, governance, selected, normalized, order[k]) {
          pending := pending + [order[k]];
        }
      }
      assert order[..|order|] == order;
    }

    /** The core claim, a compare-and-set on an unclaimed READY row. */
    method ClaimTask(id: TaskId, claimer: string, wins: bool) returns (claimed: bool)
      requires id in rows
      modifies this`rows
      ensures claimed <==> wins && old(rows)[id].status == "ready" && old(rows)[id].lock.None?
      ensures rows == if claimed then old(rows)[id := old(rows)[id].(status := "running", lock := Some(claimer), pid := None)]
                      else old(rows)
    {
      claimed := wins && rows[id].status == "ready" && rows[id].lock.None?;
      if claimed {
        rows := rows[id := rows[id].(status := "running", lock := Some(claimer), pid := None)];
      }
    }

    /** The core release of a claim. */
    method ReclaimTask(id: TaskId, works: bool) returns (released: bool)
      requires id in rows
      modifies this`rows
      ensures released == works
      ensures rows == if works then old(rows)[id := old(rows)[id].(status := "ready", lock := None, pid := None)] else old(rows)
    {
      if works {
        rows := rows[id := rows[id].(status := "ready", lock := None, pid := None)];
      }
      released := works;
    }

    /** The core failure counter with its circuit breaker, releasing the claim. */
    method RecordTaskFailure(id: TaskId, limit: nat) returns (autoBlocked: bool)
      requires id in rows
      modifies this`rows
      ensures autoBlocked <==> old(rows)[id].failures + 1 >= limit
      ensures rows == old(rows)[id := old(rows)[id].(status := if autoBlocked then "blocked" else "ready", lock := None, pid := None,
                                                     failures := old(rows)[id].failures + 1)]
    {
      autoBlocked := rows[id].failures + 1 >= limit;
      rows := rows[id := rows[id].(status := if autoBlocked then "blocked" else "ready", lock := None, pid := None,
                                   failures := rows[id].failures + 1)];
    }

    /** `_reserve_rework_task`. */
    method Reserve(id: TaskId)
      requires id in rows
      modifies this`rows
      ensures rows == if old(rows)[id].status == "ready" && old(rows)[id].lock.None?
                      then old(rows)[id := old(rows)[id].(assignee := Some(RESERVED_ASSIGNEE))] else old(rows)
    {
      if rows[id].status == "ready" && rows[id].lock.None? {
        rows := rows[id := rows[id].(assignee := Some(RESERVED_ASSIGNEE))];
      }
    }

    /** `_resolve_rework_assignee`: the reservation gives way to a real profile. */
    method ResolveAssignee(id: TaskId, settings: Settings, previous: Option<string>, dryRun: bool) returns (assignee: Option<string>)
      requires id in rows
      modifies this`rows
      ensures assignee == Resolved(old(rows)[id].assignee, settings, previous)
      ensures dryRun || assignee.None? ==> rows == old(rows)
      ensures !dryRun && assignee.Some? ==> rows == old(rows)[id := old(rows)[id].(assignee := assignee)]
    {
      var own := rows[id].assignee;
      if IsProfile(own) {
        assert rows == rows[id := rows[id].(assignee := own)];
        return own;
      }
      assignee := settings.defaultAssignee;
      if assignee.None? && IsProfile(previous) {
        assignee := previous;
      }
      if assignee.None? || dryRun {
        return;
      }
      rows := rows[id := rows[id].(assignee := assignee)];
    }

    /** Neither claimed nor running; a READY row is kept for this lane. */
    predicate Freed(id: TaskId, limit: nat)
      reads this
    {
      && id in rows && rows[id].lock.None? && rows[id].pid.None?
      && ( (rows[id].status == "ready" && rows[id].assignee == Some(RESERVED_ASSIGNEE))
        || (rows[id].status == "blocked" && rows[id].failures >= limit))
    }

    predicate HeldBy(id: TaskId, claimer: string)
      reads this
    {
      id in rows && rows[id].status == "running" && rows[id].lock == Some(claimer)
    }

    /** The claim goes back after `reason`, if the core releases it. */
    method GiveBack(id: TaskId, claimer: string, limit: nat, works: bool, reason: Exit) returns (exit: Exit)
      requires HeldBy(id, claimer)
      modifies this`rows
      ensures OnlyRow(old(rows), id) && rows[id].failures == old(rows)[id].failures
      ensures exit == if works then reason else ReclaimFailed
      ensures if works then Freed(id, limit) else HeldBy(id, claimer)
    {
      var released := ReclaimTask(id, works);
      if !released {
        return ReclaimFailed;
      }
      Reserve(id);
      exit := reason;
    }

    /** A failed attempt is counted and the claim released with it. */
    method FailAndFree(id: TaskId, limit: nat) returns (autoBlocked: bool)
      requires id in rows
      modifies this`rows
      ensures OnlyRow(old(rows), id) && Freed(id, limit)
      ensures rows[id].failures == old(rows)[id].failures + 1
      ensures autoBlocked <==> rows[id].status == "blocked"
      ensures autoBlocked <==> old(rows)[id].failures + 1 >= limit
    {
      autoBlocked := RecordTaskFailure(id, limit);
      Reserve(id);
    }

    /** From the claimed card to the running worker. */
    method Launch(id: TaskId, claimer: string, settings: Settings, world: World) returns (exit: Exit)
      requires HeldBy(id, claimer)
      modifies this
      ensures OnlyRow(old(rows), id)
      ensures exit.WorkspaceNotFound? || exit.SpawnFailed? || exit.Crashed? || exit.WorkerSpawned?
      ensures if Holding(exit) then HeldBy(id, claimer) else Freed(id, settings.failureLimit)
      ensures rows[id].failures == old(rows)[id].failures + if Holding(exit) then 0 else 1
      ensures exit.Crashed? ==> !world.pathsStored
      ensures Holding(exit) ==> rows[id].assignee == old(rows)[id].assignee
      ensures notes == old(notes) + if exit.WorkerSpawned? then [(id, "spawned")] else []
      ensures started == old(started) + if Starts(exit, world) then 1 else 0
      ensures exit.WorkerSpawned? && !HasPid(world.spawn) ==> rows == old(rows)
      ensures exit.Crashed? ==> rows == old(rows)
      ensures exit.WorkspaceNotFound? <==> !world.workspaceFound
      ensures exit.Crashed? <==> world.workspaceFound && !world.pathsStored
      ensures exit.SpawnFailed? <==> world.workspaceFound && world.pathsStored && !SpawnRecorded(world)
      ensures exit.WorkerSpawned? <==> world.workspaceFound && world.pathsStored && SpawnRecorded(world)
      ensures exit.WorkspaceNotFound? || exit.SpawnFailed? ==>
                (exit.autoBlocked <==> old(rows)[id].failures + 1 >= settings.failureLimit)
      ensures exit.WorkerSpawned? && HasPid(world.spawn) ==> rows[id].pid == world.spawn.pid
    {
      if !world.workspaceFound {
        var autoBlocked := FailAndFree(id, settings.failureLimit);
        return WorkspaceNotFound(autoBlocked);
      }
      if !world.pathsStored {
        return Crashed;
      }
      if world.spawn.SpawnReturns? {
        started := started + 1;
        if HasPid(world.spawn) && world.pidStored {
          rows := rows[id := rows[id].(pid := world.spawn.pid)];
        }
      }
      if !SpawnRecorded(world) {
        var autoBlocked := FailAndFree(id, settings.failureLimit);
        return SpawnFailed(autoBlocked);
      }
      notes := notes + [(id, "spawned")];
      exit := WorkerSpawned;
    }

    /** The claim is written down and shown on the PR, or given back. */
    method ConfirmClaim(id: TaskId, claimer: string, limit: nat, world: World) returns (refused: Option<Exit>)
      requires HeldBy(id, claimer)
      modifies this`rows, this`notes
      ensures OnlyRow(old(rows), id) && rows[id].failures == old(rows)[id].failures
      ensures refused.Some? ==> refused.value.ClaimNotNoted? || refused.value.LabelsNotProjected? || refused.value.ReclaimFailed?
      ensures refused.Some? && refused.value.ReclaimFailed? ==> !world.reclaimWorks
      ensures if refused.None? || refused.value.ReclaimFailed? then HeldBy(id, claimer) else Freed(id, limit)
      ensures refused.None? ==> notes == old(notes) + [(id, "claimed")] && rows == old(rows)
      ensures refused.None? <==> world.claimNoted && world.labelsProjected != Some(false)
      ensures refused == Some(ClaimNotNoted) <==> !world.claimNoted && world.reclaimWorks
      ensures refused == Some(LabelsNotProjected) <==> world.claimNoted && world.labelsProjected == Some(false) && world.reclaimWorks
    {
      if !world.claimNoted {
        var exit := GiveBack(id, claimer, limit, world.reclaimWorks, ClaimNotNoted);
        return Some(exit);
      }
      notes := notes + [(id, "claimed")];
      if world.labelsProjected.Some? && !world.labelsProjected.value {
        var exit := GiveBack(id, claimer, limit, world.reclaimWorks, LabelsNotProjected);
        return Some(exit);
      }
      refused := None;
    }

    /** From the claimed card, if its claim is confirmed, to the running worker. */
    method RunClaimed(id: TaskId, claimer: string, settings: Settings, world: World) returns (exit: Exit)
      requires HeldBy(id, claimer) && world.claimWins
      modifies this
      ensures OnlyRow(old(rows), id)
      ensures if Holding(exit) then HeldBy(id, claimer) else Freed(id, settings.failureLimit)
      ensures rows[id].failures == old(rows)[id].failures + if exit.WorkspaceNotFound? || exit.SpawnFailed? then 1 else 0
      ensures exit.WorkerSpawned? ==> notes == old(notes) + [(id, "claimed"), (id, "spawned")]
      ensures exit.WorkerSpawned? && HasPid(world.spawn) ==> rows[id].pid == world.spawn.pid
      ensures exit.WorkerSpawned? && !HasPid(world.spawn) ==> rows[id].pid == old(rows)[id].pid
      ensures exit.WorkerSpawned? ==> rows[id].assignee == old(rows)[id].assignee
      ensures started == old(started) + if Starts(exit, world) then 1 else 0
      ensures AfterClaim(exit) && !exit.ClaimFailed? && ClaimEnds(exit, old(rows)[id].failures, settings, world)
    {
      hide Freed, HasPid, SpawnRecorded, ClaimEnds;
      var refused := ConfirmClaim(id, claimer, settings.failureLimit, world);
      if refused.Some? {
        RefusedEnds(refused.value, old(rows)[id].failures, settings, world);
        return refused.value;
      }
      exit := Launch(id, claimer, settings, world);
      LaunchedEnds(exit, old(rows)[id].failures, settings, world);
    }

    /** From the unclaimed card to the running worker. */
    method ClaimAndSpawn(id: TaskId, claimer: string, settings: Settings, world: World) returns (exit: Exit)
      requires id in rows
      modifies this
      ensures OnlyRow(old(rows), id)
      ensures exit.ClaimFailed? <==> !(world.claimWins && old(rows)[id].status == "ready" && old(rows)[id].lock.None?)
      ensures exit.ClaimFailed? ==> rows == old(rows) && notes == old(notes)
      ensures !exit.ClaimFailed? ==> if Holding(exit) then HeldBy(id, claimer) else Freed(id, settings.failureLimit)
      ensures rows[id].failures == old(rows)[id].failures + if exit.WorkspaceNotFound? || exit.SpawnFailed? then 1 else 0
      ensures exit.WorkerSpawned? ==> notes == old(notes) + [(id, "claimed"), (id, "spawned")]
      ensures exit.WorkerSpawned? && HasPid(world.spawn) ==> rows[id].pid == world.spawn.pid
      ensures exit.WorkerSpawned? && !HasPid(world.spawn) ==> rows[id].pid.None?
      ensures exit.WorkerSpawned? ==> rows[id].assignee == old(rows)[id].assignee
      ensures started == old(started) + if Starts(exit, world) then 1 else 0
      ensures exit.ReclaimFailed? ==> !world.reclaimWorks
      ensures exit.Crashed? ==> !world.pathsStored
      ensures AfterClaim(exit)
      ensures old(rows)[id].status == "ready" && old(rows)[id].lock.None? ==> ClaimEnds(exit, old(rows)[id].failures, settings, world)
    {
      hide Freed, HasPid, SpawnRecorded;
      var claimed := ClaimTask(id, claimer, world.claimWins);
      if !claimed {
        if !world.claimWins {
          LostEnds(old(rows)[id].failures, settings, world);
        }
        return ClaimFailed;
      }
      exit := RunClaimed(id, claimer, settings, world);
    }

    /** An admitted card gets its assignee and, unless this is a dry run, its worker. */
    method Start(id: TaskId, claimer: string, settings: Settings, previous: Option<string>, dryRun: bool, world: World)
      returns (exit: Exit)
      requires id in rows && rows[id].status == "ready" && rows[id].lock.None?
      modifies this
      ensures OnlyRow(old(rows), id)
      ensures Holding(exit) ==> HeldBy(id, claimer)
      ensures !Holding(exit) ==> rows[id].lock.None? && rows[id].status != "running"
      ensures dryRun ==> rows == old(rows) && notes == old(notes)
      ensures exit.WorkerSpawned? ==>
                && notes == old(notes) + [(id, "claimed"), (id, "spawned")] && (world.profileExists.Some? ==> world.profileExists.value)
                && rows[id].pid == (if HasPid(world.spawn) then world.spawn.pid else None)
                && rows[id].assignee.Some? && rows[id].assignee == Resolved(old(rows)[id].assignee, settings, previous)
      ensures started == old(started) + if Starts(exit, world) then 1 else 0
      ensures dryRun ==> started == old(started)
      ensures exit.ReclaimFailed? ==> !world.reclaimWorks
      ensures exit.Crashed? ==> !world.pathsStored
      ensures AfterClaim(exit) || exit in {Unassigned, SpawnPredicted, ProfileMissing}
      ensures StartEnds(exit, old(rows)[id], settings, previous, dryRun, world)
    {
      hide ClaimEnds, StartEnds, Resolved, IsProfile, HasPid;
      var assignee := ResolveAssignee(id, settings, previous, dryRun);
      if assignee.None? {
        UnclaimedEnds(Unassigned, old(rows)[id], settings, previous, dryRun, world);
        return Unassigned;
      }
      if dryRun {
        UnclaimedEnds(SpawnPredicted, old(rows)[id], settings, previous, dryRun, world);
        return SpawnPredicted;
      }
      if world.profileExists.Some? && !world.profileExists.value {
        UnclaimedEnds(ProfileMissing, old(rows)[id], settings, previous, dryRun, world);
        return ProfileMissing;
      }
      exit := ClaimAndSpawn(id, claimer, settings, world);
      UnclaimedEnds(exit, old(rows)[id], settings, previous, dryRun, world);
    }

    /** The guards, and then the start, of the chosen card. */
    method AdmitAndStart(id: TaskId, context: Option<Option<Context>>, latest: Option<Entry>, normalizedDryRun: bool, hasClient: bool,
                         owners: map<(string, int), TaskId>, bodyRef: Option<GithubTaskRef>, claimer: string, settings: Settings,
                         previous: Option<string>, dryRun: bool, world: World)
      returns (exit: Exit)
      requires id in rows && rows[id].status == "ready" && rows[id].lock.None?
      modifies this
      ensures OnlyRow(old(rows), id)
      ensures if Holding(exit) then HeldBy(id, claimer) else rows[id].lock.None? && rows[id].status != "running"
      ensures dryRun ==> rows == old(rows) && notes == old(notes) && started == old(started)
      ensures exit.WorkerSpawned? ==>
                && notes == old(notes) + [(id, "claimed"), (id, "spawned")] && (world.profileExists.Some? ==> world.profileExists.value)
                && rows[id].pid == (if HasPid(world.spawn) then world.spawn.pid else None)
                && rows[id].assignee.Some? && rows[id].assignee == Resolved(old(rows)[id].assignee, settings, previous)
      ensures started == old(started) + if Starts(exit, world) then 1 else 0
      ensures exit.ReclaimFailed? ==> !world.reclaimWorks
      ensures exit.Crashed? ==> !world.pathsStored
      ensures !exit.BoardBusy? && !exit.NothingPending?
      ensures var guards := Admission(context, latest, normalizedDryRun, hasClient, owners, bodyRef, id);
              if guards.Err? then rows == old(rows) && exit == guards.error
              else StartEnds(exit, old(rows)[id], settings, previous, dryRun, world)
      ensures exit.WorkerSpawned? <==>
                && Admission(context, latest, normalizedDryRun, hasClient, owners, bodyRef, id).Ok?
                && Resolved(old(rows)[id].assignee, settings, previous).Some? && !dryRun && AllWorks(world)
    {
      hide Admission, StartEnds, HasPid, AllWorks, Resolved;
      AdmittedWhen(context, latest, normalizedDryRun, hasClient, owners, bodyRef, id);
      var admitted := Admission(context, latest, normalizedDryRun, hasClient, owners, bodyRef, id);
      if admitted.Err? {
        return admitted.error;
      }
      exit := Start(id, claimer, settings, previous, dryRun, world);
      SpawnedWhen(exit, old(rows)[id], settings, previous, dryRun, world);
    }

    /** `_dispatch_pending_rework_locked`.  At most one card is claimed, the board
        never runs more cards than the cap allows, and a tick that does not report
        a worker leaves its card unclaimed, unless the release itself failed or
        storing the workspace raised. */
    method Tick(order: seq<TaskId>, governance: map<TaskId, Governance>, selected: Option<set<TaskId>>, normalized: set<TaskId>,
                contexts: Option<map<TaskId, Option<Context>>>, latest: map<TaskId, Entry>, owners: map<(string, int), TaskId>,
                hasClient: bool, previous: map<TaskId, string>, refs: map<TaskId, GithubTaskRef>, claimer: string,
                settings: Settings, dryRun: bool, world: World)
      returns (exit: Exit, task: Option<TaskId>)
      modifies this
      ensures exit.BoardBusy? <==>
                |set id | id in old(rows) && old(rows)[id].status == "running"| >= (if settings.maxInProgress >= 1 then settings.maxInProgress else 1)
      ensures exit.BoardBusy? <==> |Running(old(rows))| >= Cap(settings)
      ensures |Running(rows)| <= |Running(old(rows))| || |Running(rows)| <= Cap(settings)
      ensures |Running(rows)| <= |Running(old(rows))| + 1
      ensures task.None? <==> exit.BoardBusy? || exit.NothingPending?
      ensures task.None? || dryRun ==> rows == old(rows) && notes == old(notes) && started == old(started)
      ensures task.Some? ==> task.value in old(rows) && IsPending(old(rows), governance, selected, normalized, task.value)
      ensures !exit.BoardBusy? ==> task == Oldest(old(rows), order, governance, selected, normalized)
      ensures task.Some? ==> OnlyRow(old(rows), task.value)
      ensures task.Some? ==>
                && (rows[task.value].lock.Some? <==> Holding(exit))
                && (rows[task.value].status == "running" <==> Holding(exit))
      ensures exit.ReclaimFailed? ==> !world.reclaimWorks
      ensures exit.Crashed? ==> !world.pathsStored
      ensures started == old(started) + if Starts(exit, world) then 1 else 0
      ensures exit.WorkerSpawned? ==>
                && (world.profileExists.Some? ==> world.profileExists.value)
                && notes == old(notes) + [(task.value, "claimed"), (task.value, "spawned")]
                && rows[task.value].pid == (if HasPid(world.spawn) then world.spawn.pid else None)
                && rows[task.value].assignee.Some?
                && rows[task.value].assignee == Resolved(old(rows)[task.value].assignee, settings, Lookup(previous, task.value))
      ensures task.Some? ==>
                var guards := Admission(Known(contexts, task.value), Lookup(latest, task.value), dryRun && task.value in normalized,
                                        hasClient, owners, Lookup(refs, task.value), task.value);
                if guards.Err? then exit == guards.error && rows == old(rows)
                else StartEnds(exit, old(rows)[task.value], settings, Lookup(previous, task.value), dryRun, world)
      ensures exit.WorkerSpawned? <==>
                && |Running(old(rows))| < Cap(settings)
                && Oldest(old(rows), order, governance, selected, normalized).Some?
                && var id := Oldest(old(rows), order, governance, selected, normalized).value;
                && Admission(Known(contexts, id), Lookup(latest, id), dryRun && id in normalized, hasClient, owners, Lookup(refs, id), id).Ok?
                && Resolved(old(rows)[id].assignee, settings, Lookup(previous, id)).Some?
                && !dryRun && AllWorks(world)
    {
      hide Admission, Oldest, OwnedByLane, Running, StartEnds, AllWorks, Resolved, Known, HasPid;
      var running := |Running(rows)|;
      RunningAre(rows);
      if running >= Cap(settings) {
        return BoardBusy, None;
      }
      var pending := PendingRework(order, governance, selected, normalized);
      if pending == [] {
        return NothingPending, None;
      }
      var id := pending[0];
      assert id in pending;
      task := Some(id);
      exit := AdmitAndStart(id, Known(contexts, id), Lookup(latest, id), dryRun && id in normalized, hasClient, owners,
                            Lookup(refs, id), claimer, settings, Lookup(previous, id), dryRun, world);
      RunningGrowsByOne(old(rows), rows, id);
    }
  }

  /** `max(1, int(max_in_progress or 1))`. */
  function Cap(settings: Settings): (cap: nat)
    ensures cap == if settings.maxInProgress < 1 then 1 else settings.maxInProgress
  {
    if settings.maxInProgress >= 1 then settings.maxInProgress else 1
  }

  /** The assignee a rework runs under: its own, else the default one, else the
      one it had before the rework reserved it. */
  function Resolved(own: Option<string>, settings: Settings, previous: Option<string>): (assignee: Option<string>)
    ensures own.Some? && own.value != "" && own.value != "__github_edge_rework_dispatcher__" ==> assignee == own
    ensures own in {None, Some(""), Some("__github_edge_rework_dispatcher__")} && settings.defaultAssignee.Some? ==>
              assignee == settings.defaultAssignee
    ensures own in {None, Some(""), Some("__github_edge_rework_dispatcher__")} && settings.defaultAssignee.None? ==>
              assignee == if previous in {Some(""), Some("__github_edge_rework_dispatcher__")} then None else previous
    ensures IsProfile(own) ==> assignee == own
    ensures !IsProfile(own) && settings.defaultAssignee.Some? ==> assignee == settings.defaultAssignee
    ensures !IsProfile(own) && settings.defaultAssignee.None? && IsProfile(previous) ==> assignee == previous
    ensures assignee.None? <==> !IsProfile(own) && settings.defaultAssignee.None? && !IsProfile(previous)
  {
    if IsProfile(own) then own
    else if settings.defaultAssignee.Some? then settings.defaultAssignee
    else if IsProfile(previous) then previous
    else None
  }

  /** What the wake knows about `id`, if it has looked at contexts at all. */
  function Known(contexts: Option<map<TaskId, Option<Context>>>, id: TaskId): (context: Option<Option<Context>>)
    ensures context.None? <==> contexts.None?
    ensures contexts.Some? && id !in contexts.value ==> context == Some(None)
    ensures contexts.Some? && id in contexts.value ==> context == Some(contexts.value[id])
  {
    if contexts.None? then None else if id in contexts.value then Some(contexts.value[id]) else Some(None)
  }

  function Lookup<T>(m: map<TaskId, T>, id: TaskId): (value: Option<T>)
    ensures value.Some? <==> id in m
    ensures value.Some? ==> value.value == m[id]
  {
    if id in m then Some(m[id]) else None
  }

  predicate IsProfile(name: Option<string>) {
    name.Some? && name.value != "" && name.value != RESERVED_ASSIGNEE
  }

  /** The exits that leave the claim in place. */
  predicate Holding(exit: Exit) {
    exit.WorkerSpawned? || exit.ReclaimFailed? || exit.Crashed?
  }

  predicate AfterClaim(exit: Exit) {
    || exit.ClaimFailed? || exit.ClaimNotNoted? || exit.LabelsNotProjected? || exit.WorkspaceNotFound? || exit.SpawnFailed?
    || Holding(exit)
  }

  /** The spawn worked and everything about it was written down. */
  predicate SpawnRecorded(world: World) {
    world.spawn.SpawnReturns? && (HasPid(world.spawn) ==> world.pidStored) && world.spawnNoted
  }

  /** How a claim of a free READY card ends, each exit exactly when: the claim is
      lost, taken back, or launched. */
  ghost predicate ClaimEnds(exit: Exit, failures: nat, settings: Settings, world: World) {
    var unsure := !world.claimNoted || world.labelsProjected == Some(false);
    var launched := world.claimWins && !unsure;
    var stored := launched && world.workspaceFound && world.pathsStored;
    var recorded := && world.spawn.SpawnReturns? && world.spawnNoted
                    && (world.spawn.pid.Some? && world.spawn.pid.value != 0 ==> world.pidStored);
    && (exit == ClaimFailed <==> !world.claimWins)
    && (exit == ClaimNotNoted <==> world.claimWins && !world.claimNoted && world.reclaimWorks)
    && (exit == LabelsNotProjected <==> world.claimWins && world.claimNoted && world.labelsProjected == Some(false) && world.reclaimWorks)
    && (exit == ReclaimFailed <==> world.claimWins && unsure && !world.reclaimWorks)
    && (exit.WorkspaceNotFound? <==> launched && !world.workspaceFound)
    && (exit == Crashed <==> launched && world.workspaceFound && !world.pathsStored)
    && (exit.SpawnFailed? <==> stored && !recorded)
    && (exit == WorkerSpawned <==> stored && recorded)
    && (exit.WorkspaceNotFound? || exit.SpawnFailed? ==> (exit.autoBlocked <==> failures + 1 >= settings.failureLimit))
  }

  lemma LostEnds(failures: nat, settings: Settings, world: World)
    requires !world.claimWins
    ensures ClaimEnds(ClaimFailed, failures, settings, world)
  {}

  lemma RefusedEnds(exit: Exit, failures: nat, settings: Settings, world: World)
    requires world.claimWins && (!world.claimNoted || world.labelsProjected == Some(false))
    requires exit == ReclaimFailed ==> !world.reclaimWorks
    requires exit == ClaimNotNoted <==> !world.claimNoted && world.reclaimWorks
    requires exit == LabelsNotProjected <==> world.claimNoted && world.labelsProjected == Some(false) && world.reclaimWorks
    requires exit in {ReclaimFailed, ClaimNotNoted, LabelsNotProjected}
    ensures ClaimEnds(exit, failures, settings, world)
  {}

  lemma LaunchedEnds(exit: Exit, failures: nat, settings: Settings, world: World)
    requires world.claimWins && world.claimNoted && world.labelsProjected != Some(false)
    requires exit.WorkspaceNotFound? <==> !world.workspaceFound
    requires exit.Crashed? <==> world.workspaceFound && !world.pathsStored
    requires exit.SpawnFailed? <==> world.workspaceFound && world.pathsStored && !SpawnRecorded(world)
    requires exit.WorkerSpawned? <==> world.workspaceFound && world.pathsStored && SpawnRecorded(world)
    requires exit.WorkspaceNotFound? || exit.SpawnFailed? ==> (exit.autoBlocked <==> failures + 1 >= settings.failureLimit)
    ensures ClaimEnds(exit, failures, settings, world)
  {}

  lemma UnclaimedEnds(exit: Exit, row: TaskRow, settings: Settings, previous: Option<string>, dryRun: bool, world: World)
    requires var assignee := Resolved(row.assignee, settings, previous);
             if assignee.None? then exit == Unassigned
             else if dryRun then exit == SpawnPredicted
             else if world.profileExists == Some(false) then exit == ProfileMissing
             else AfterClaim(exit) && ClaimEnds(exit, row.failures, settings, world)
    ensures StartEnds(exit, row, settings, previous, dryRun, world)
  {
    hide Resolved, ClaimEnds;
  }

  /** A worker is reported exactly when every step on the way worked. */
  lemma SpawnedWhen(exit: Exit, row: TaskRow, settings: Settings, previous: Option<string>, dryRun: bool, world: World)
    requires StartEnds(exit, row, settings, previous, dryRun, world)
    ensures exit.WorkerSpawned? <==> Resolved(row.assignee, settings, previous).Some? && !dryRun && AllWorks(world)
  {
    hide Resolved;
  }

  /** The claim and everything after it goes well. */
  predicate AllWorks(world: World) {
    && world.profileExists != Some(false)
    && world.claimWins && world.claimNoted && world.labelsProjected != Some(false)
    && world.workspaceFound && world.pathsStored
    && world.spawn.SpawnReturns? && world.spawnNoted
    && (world.spawn.pid.Some? && world.spawn.pid.value != 0 ==> world.pidStored)
  }

  /** How an admitted card fares, each exit exactly when. */
  ghost predicate StartEnds(exit: Exit, row: TaskRow, settings: Settings, previous: Option<string>, dryRun: bool, world: World) {
    var assignee := Resolved(row.assignee, settings, previous);
    && (exit == Unassigned <==> assignee.None?)
    && (exit == SpawnPredicted <==> assignee.Some? && dryRun)
    && (exit == ProfileMissing <==> assignee.Some? && !dryRun && world.profileExists == Some(false))
    && (assignee.Some? && !dryRun && world.profileExists != Some(false) <==> AfterClaim(exit))
    && (AfterClaim(exit) ==> ClaimEnds(exit, row.failures, settings, world))
  }

  /** A worker process is behind this exit: also behind a failure to record one. */
  predicate Starts(exit: Exit, world: World) {
    exit.WorkerSpawned? || (exit.SpawnFailed? && world.spawn.SpawnReturns?)
  }

  predicate HasPid(spawn: SpawnResult) {
    spawn.SpawnReturns? && spawn.pid.Some? && spawn.pid.value != 0
  }
}
