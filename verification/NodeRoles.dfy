/** The role that durable evidence gives each card of a graph under convergence. */
module NodeRoles {
  import opened Prelude
  import opened EventLog
  import opened KanbanBoard
  import opened Provenance

  const TERMINALIZE: set<string> := {"blocked"}
  const ARCHIVE: set<string> := {"todo", "review", "ready", "scheduled"}
  const DEVELOPERS: set<string> := {"kanban-developer"}
  const REVIEWERS: set<string> := {"kanban-reviewer"}

  datatype Role =
    | IntakeRoot
    | AlreadyTerminal(status: string)
    | Stale(evidence: ReworkEvidence)
    | Reviewer(assignee: string, parents: set<TaskId>)

  datatype RoleError =
    | NotConvergeable(node: TaskId)
    | MissingReworkEvidence(node: TaskId)
    | CurrentRoundHold(node: TaskId)
    | MissingReviewerEvidence(node: TaskId)

  /** What the classification reads: the walked rows, the links into them, the
      event log, the Issue, and the merged heads once they are known. */
  datatype View = View(root: TaskId, nodes: map<TaskId, Row>, edges: multiset<Link>, log: seq<Event>,
                       ref: GithubTaskRef, merged: Option<map<int, string>>)

  function DirectParents(edges: multiset<Link>, child: TaskId): (parents: set<TaskId>)
    ensures forall p :: p in parents <==> Link(p, child) in edges
  {
    set l | l in edges && l.child == child :: l.parent
  }

  /** A blocked card may be terminalised: its governing round is stale, a
      developer was created for it, and its live parents are the recorded ones. */
  ghost predicate StaleDeveloper(v: View, id: TaskId) {
    var creation := CreationOf(v.log, id);
    && EvidenceOf(v.log, id, v.ref, v.merged).StaleRework?
    && creation.Some?
    && creation.value.assignee in DEVELOPERS
    && creation.value.parents == DirectParents(v.edges, id) != {}
  }

  /** The ids of the blocked cards above the root. */
  ghost function BlockedIds(v: View): set<TaskId> {
    set id | id in v.nodes && id != v.root && v.nodes[id].status in TERMINALIZE
  }

  function OpenParents(v: View, id: TaskId): set<TaskId> {
    set p | p in DirectParents(v.edges, id) && p in v.nodes && v.nodes[p].status !in TERMINAL
  }

  /** An unstarted card may be archived: it was created for a reviewer, its live
      parents are the recorded ones, and whatever it still waits for is stale rework. */
  ghost predicate StaleReviewer(v: View, id: TaskId, stale: set<TaskId>) {
    var creation := CreationOf(v.log, id);
    && creation.Some?
    && creation.value.assignee in REVIEWERS
    && creation.value.parents == DirectParents(v.edges, id) != {}
    && DirectParents(v.edges, id) * stale != {}
    && OpenParents(v, id) <= stale
  }

  /** Whom the log says `id` was created for, and with which parents. */
  ghost predicate CreatedFor(v: View, id: TaskId, assignee: string) {
    exists c :: IsCreationOf(v.log, id, c) && c.assignee == assignee && forall p :: p in c.parents <==> Link(p, id) in v.edges
  }

  /** What makes a blocked card stale rework, and an unstarted card a stale
      reviewer, read off the links and the log. */
  lemma StaleWhen(v: View, id: TaskId, stale: set<TaskId>)
    ensures StaleDeveloper(v, id) <==>
              && EvidenceOf(v.log, id, v.ref, v.merged).StaleRework?
              && CreatedFor(v, id, "kanban-developer") && exists p :: Link(p, id) in v.edges
    ensures StaleReviewer(v, id, stale) <==>
              && CreatedFor(v, id, "kanban-reviewer")
              && (exists p :: Link(p, id) in v.edges && p in stale)
              && (forall p :: Link(p, id) in v.edges && p in v.nodes && v.nodes[p].status !in {"done", "archived"} ==> p in stale)
  {
    hide EvidenceOf, IsCreationOf;
    CreatedWhen(v, id, "kanban-developer");
    CreatedWhen(v, id, "kanban-reviewer");
    var parents := DirectParents(v.edges, id);
    hide CreatedFor;
    if StaleReviewer(v, id, stale) {
      var p :| p in parents * stale;
      assert Link(p, id) in v.edges;
      forall q | Link(q, id) in v.edges && q in v.nodes && v.nodes[q].status !in {"done", "archived"} ensures q in stale {
        assert q in OpenParents(v, id);
      }
    }
    if exists p :: Link(p, id) in v.edges && p in stale {
      var p :| Link(p, id) in v.edges && p in stale;
      assert p in parents * stale;
    }
    if exists p :: Link(p, id) in v.edges {
      var p :| Link(p, id) in v.edges;
      assert p in parents;
    }
    if parents != {} {
      var p :| p in parents;
      assert Link(p, id) in v.edges;
    }
  }

  lemma CreatedWhen(v: View, id: TaskId, assignee: string)
    ensures CreatedFor(v, id, assignee) <==>
              && CreationOf(v.log, id).Some? && CreationOf(v.log, id).value.assignee == assignee
              && CreationOf(v.log, id).value.parents == DirectParents(v.edges, id)
  {
    if c :| IsCreationOf(v.log, id, c) && c.assignee == assignee && forall p :: p in c.parents <==> Link(p, id) in v.edges {
      CreationIsUnique(v.log, id, c, CreationOf(v.log, id).value);
      assert c.parents == DirectParents(v.edges, id);
    }
    if CreationOf(v.log, id).Some? {
      var c := CreationOf(v.log, id).value;
      assert IsCreationOf(v.log, id, c);
    }
    hide IsCreationOf, CreationOf;
  }

  ghost predicate Convergeable(v: View, id: TaskId)
    requires id in v.nodes
  {
    var status := v.nodes[id].status;
    || id == v.root
    || status in TERMINAL
    || (status in TERMINALIZE && StaleDeveloper(v, id))
    || (status in ARCHIVE && StaleReviewer(v, id, BlockedIds(v)))
  }

  ghost predicate AllConvergeable(v: View) {
    forall id :: id in v.nodes ==> Convergeable(v, id)
  }

  /** The role of one node in a view whose nodes are all convergeable. */
  ghost function RoleOf(v: View, id: TaskId): Role
    requires id in v.nodes
  {
    var status := v.nodes[id].status;
    if id == v.root then IntakeRoot
    else if status in TERMINAL then AlreadyTerminal(status)
    else if status in TERMINALIZE then Stale(EvidenceOf(v.log, id, v.ref, v.merged))
    else var c := CreationOf(v.log, id);
         if c.Some? then Reviewer(c.value.assignee, c.value.parents) else IntakeRoot
  }

  /** The classification of a whole view: every node has exactly one role. */
  ghost predicate Classified(v: View, roles: map<TaskId, Role>) {
    && AllConvergeable(v)
    && roles.Keys == v.nodes.Keys
    && forall id :: id in roles ==> roles[id] == RoleOf(v, id)
  }

  /** One blocked node, from its event log. */
  method ClassifyBlocked(v: View, id: TaskId) returns (role: Result<Role, RoleError>)
    requires DistinctIds(v.log) && id in v.nodes && id != v.root
    requires v.nodes[id].status in TERMINALIZE
    ensures role.Ok? <==> StaleDeveloper(v, id)
    ensures role.Ok? ==> role.value == RoleOf(v, id)
  {
    hide EvidenceOf, CreationOf, DirectParents, HeldRound;
    var event := ReworkProvenance(v.log, id, v.ref, v.merged);
    var creation := TaskCreationProvenance(v.log, id);
    var parents := DirectParents(v.edges, id);
    if event.NoEvidence? || creation.None? || creation.value.assignee !in DEVELOPERS
       || creation.value.parents != parents || parents == {}
    {
      return Err(MissingReworkEvidence(id));
    }
    if event.HumanHold? {
      return Err(CurrentRoundHold(id));
    }
    return Ok(Stale(event));
  }

  /** One unstarted node, given the stale rework ids. */
  method ClassifyUnstarted(v: View, id: TaskId, stale: set<TaskId>) returns (role: Result<Role, RoleError>)
    requires DistinctIds(v.log) && id in v.nodes && id != v.root
    requires v.nodes[id].status in ARCHIVE
    ensures role.Ok? <==> StaleReviewer(v, id, stale)
    ensures role.Ok? ==> role.value == RoleOf(v, id)
  {
    hide EvidenceOf, CreationOf, DirectParents, OpenParents;
    var creation := TaskCreationProvenance(v.log, id);
    var parents := DirectParents(v.edges, id);
    var open := OpenParents(v, id);
    if creation.None? || creation.value.assignee !in REVIEWERS || creation.value.parents != parents
       || parents == {} || parents * stale == {} || !(open <= stale)
    {
      return Err(MissingReviewerEvidence(id));
    }
    return Ok(Reviewer(creation.value.assignee, creation.value.parents));
  }

  /** The nodes of `done`, but for the unstarted ones, have their roles. */
  ghost predicate FirstPass(v: View, done: set<TaskId>, found: map<TaskId, Role>, stale: set<TaskId>) {
    && stale == BlockedIds(v) * done
    && (forall id :: id in found <==> id in v.nodes && id in done && (id == v.root || v.nodes[id].status !in ARCHIVE))
    && (forall id :: id in found ==> found[id] == RoleOf(v, id) && Convergeable(v, id))
  }

  lemma FirstPassStep(v: View, done: set<TaskId>, found: map<TaskId, Role>, stale: set<TaskId>, id: TaskId, role: Option<Role>)
    requires FirstPass(v, done, found, stale) && id in v.nodes && id !in done && id != v.root
    requires role.None? <==> v.nodes[id].status in ARCHIVE
    requires role.Some? ==> role.value == RoleOf(v, id) && Convergeable(v, id)
    ensures FirstPass(v, done + {id}, if role.None? then found else found[id := role.value],
                      if v.nodes[id].status in TERMINALIZE then stale + {id} else stale)
  {
    hide RoleOf, Convergeable;
    assert id in BlockedIds(v) <==> v.nodes[id].status in TERMINALIZE;
  }

  /** One node of the first pass; unstarted nodes are left for the second. */
  method ClassifyFirst(v: View, id: TaskId) returns (role: Result<Option<Role>, RoleError>)
    requires DistinctIds(v.log) && id in v.nodes && id != v.root
    ensures role.Err? ==> !Convergeable(v, id)
    ensures role.Ok? ==> (role.value.None? <==> v.nodes[id].status in ARCHIVE)
    ensures role.Ok? && role.value.Some? ==> role.value.value == RoleOf(v, id) && Convergeable(v, id)
  {
    hide StaleDeveloper, StaleReviewer, EvidenceOf, CreationOf;
    var status := v.nodes[id].status;
    if status in TERMINAL {
      return Ok(Some(AlreadyTerminal(status)));
    }
    if status !in TERMINALIZE + ARCHIVE {
      return Err(NotConvergeable(id));
    }
    if status in ARCHIVE {
      return Ok(None);
    }
    var blocked := ClassifyBlocked(v, id);
    if blocked.Err? {
      return Err(blocked.error);
    }
    return Ok(Some(blocked.value));
  }

  /** The first pass: every node that is not waiting to start. */
  method ClassifyStarted(v: View) returns (found: map<TaskId, Role>, stale: set<TaskId>, error: Option<RoleError>)
    requires DistinctIds(v.log) && v.root in v.nodes
    ensures error.None? ==> FirstPass(v, v.nodes.Keys, found, stale)
    ensures error.Some? ==> exists id :: id in v.nodes && !Convergeable(v, id)
  {
    hide StaleDeveloper, StaleReviewer, EvidenceOf, CreationOf;
    found, stale, error := map[v.root := IntakeRoot], {}, None;
    var todo := v.nodes.Keys - {v.root};
    ghost var done := {v.root};
    while todo != {}
      invariant done !! todo && done + todo == v.nodes.Keys && v.root in done
      invariant FirstPass(v, done, found, stale)
      invariant error.None?
    {
      hide FirstPass, Convergeable, RoleOf;
      var id :| id in todo;
      var role := ClassifyFirst(v, id);
      if role.Err? {
        error := Some(role.error);
        return;
      }
      FirstPassStep(v, done, found, stale, id, role.value);
      todo, done := todo - {id}, done + {id};
      if role.value.Some? {
        found := found[id := role.value.value];
      }
      if v.nodes[id].status in TERMINALIZE {
        stale := stale + {id};
      }
    }
    assert done == v.nodes.Keys;
  }

  ghost predicate SecondPass(v: View, done: set<TaskId>, found: map<TaskId, Role>) {
    && (forall id :: id in found <==> id in v.nodes && (id == v.root || v.nodes[id].status !in ARCHIVE || id in done))
    && (forall id :: id in found ==> found[id] == RoleOf(v, id) && Convergeable(v, id))
  }

  lemma SecondPassStep(v: View, done: set<TaskId>, found: map<TaskId, Role>, id: TaskId, role: Option<Role>)
    requires SecondPass(v, done, found) && id in v.nodes && id !in done && id != v.root
    requires role.Some? <==> v.nodes[id].status in ARCHIVE
    requires role.Some? ==> role.value == RoleOf(v, id) && Convergeable(v, id)
    ensures SecondPass(v, done + {id}, if role.None? then found else found[id := role.value])
  {
    hide RoleOf, Convergeable;
  }

  /** The two passes leave nothing unclassified. */
  lemma BothPassesClassify(v: View, found: map<TaskId, Role>)
    requires SecondPass(v, v.nodes.Keys, found)
    ensures Classified(v, found)
  {
    hide RoleOf, Convergeable;
    assert forall id :: id in v.nodes ==> id in found;
  }

  lemma FirstPassIsSecond(v: View, found: map<TaskId, Role>, stale: set<TaskId>)
    requires FirstPass(v, v.nodes.Keys, found, stale) && v.root in v.nodes
    ensures SecondPass(v, {v.root}, found) && stale == BlockedIds(v)
  {
    hide RoleOf, Convergeable;
    assert BlockedIds(v) * v.nodes.Keys == BlockedIds(v);
  }

  lemma UnstartedIsConvergeable(v: View, id: TaskId)
    requires id in v.nodes && id != v.root && v.nodes[id].status in ARCHIVE
    ensures Convergeable(v, id) <==> StaleReviewer(v, id, BlockedIds(v))
  {
    hide StaleReviewer, StaleDeveloper, BlockedIds;
  }

  /** `_terminal_convergence_node_provenance`: a pass over the started nodes, and
      then one over the unstarted ones, in any order. */
  method NodeProvenance(v: View) returns (roles: Result<map<TaskId, Role>, RoleError>)
    requires DistinctIds(v.log) && v.root in v.nodes
    ensures roles.Ok? <==> AllConvergeable(v)
    ensures roles.Ok? ==> Classified(v, roles.value)
  {
    hide StaleDeveloper, StaleReviewer, EvidenceOf, CreationOf;
    var found, stale, error := ClassifyStarted(v);
    if error.Some? {
      return Err(error.value);
    }
    FirstPassIsSecond(v, found, stale);
    var todo := v.nodes.Keys - {v.root};
    ghost var done := {v.root};
    while todo != {}
      invariant done !! todo && done + todo == v.nodes.Keys && v.root in done
      invariant SecondPass(v, done, found)
    {
      hide SecondPass, Convergeable, RoleOf;
      var id :| id in todo;
      todo := todo - {id};
      if v.nodes[id].status !in ARCHIVE {
        SecondPassStep(v, done, found, id, None);
        done := done + {id};
        continue;
      }
      var role := ClassifyUnstarted(v, id, stale);
      UnstartedIsConvergeable(v, id);
      if role.Err? {
        return Err(role.error);
      }
      SecondPassStep(v, done, found, id, Some(role.value));
      done := done + {id};
      found := found[id := role.value];
    }
    assert done == v.nodes.Keys;
    BothPassesClassify(v, found);
    return Ok(found);
  }

  /** A convergeable node other than the root is already terminal, stale rework
      or a stale reviewer, and only one of these. */
  lemma EveryNodeHasOneRole(v: View, id: TaskId)
    requires AllConvergeable(v) && id in v.nodes && id != v.root
    ensures RoleOf(v, id).AlreadyTerminal? <==> v.nodes[id].status in TERMINAL
    ensures RoleOf(v, id).Stale? <==> v.nodes[id].status in TERMINALIZE
    ensures RoleOf(v, id).Reviewer? <==> v.nodes[id].status in ARCHIVE
    ensures !RoleOf(v, id).IntakeRoot?
  {
    hide EvidenceOf, CreationOf, DirectParents, OpenParents, BlockedIds;
    assert Convergeable(v, id);
  }
}
