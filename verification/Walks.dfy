/** The two ancestor walks over present tasks: a queue in the sync script and a
    stack in the retry-signal guard.  Both follow a link only when its parent
    row exists. */
module AncestorWalks {
  import opened Prelude
  import opened Graph

  /** `task_links JOIN tasks ON tasks.id = parent_id`. */
  function LiveLinks<R>(tasks: map<TaskId, R>, links: seq<Link>): (live: seq<Link>)
    ensures forall l :: l in live <==> l in links && l.parent in tasks
  {
    if links == [] then []
    else if links[0].parent in tasks then [links[0]] + LiveLinks(tasks, links[1..])
    else LiveLinks(tasks, links[1..])
  }

  /** The present ancestors that a walk from `start` has to visit. */
  ghost predicate IsAncestor<R>(tasks: map<TaskId, R>, links: seq<Link>, start: TaskId, x: TaskId) {
    x != start && Reaches(LiveLinks(tasks, links), start, x)
  }

  ghost predicate NoDuplicates(s: seq<TaskId>) {
    forall i, j :: 0 <= i < j < |s| ==> s[i] != s[j]
  }

  /** Tasks met so far are real ancestors; each is met once, and is either still
      pending or has all of its parents met. */
  ghost predicate WalkInv(live: seq<Link>, start: TaskId, seen: set<TaskId>, pending: seq<TaskId>, met: seq<TaskId>) {
    && (forall x :: x in seen <==> x == start || x in met)
    && start !in met
    && NoDuplicates(met)
    && (forall x :: x in pending ==> x in seen)
    && (forall x :: x in seen ==> Reaches(live, start, x))
    && (forall p, c :: Link(p, c) in live && c in seen && c !in pending ==> p in seen)
  }

  /** The same while the parents of `child`, no longer pending, are being met. */
  ghost predicate ExpandInv(live: seq<Link>, start: TaskId, seen: set<TaskId>, pending: seq<TaskId>, met: seq<TaskId>,
                            child: TaskId, rows: seq<TaskId>, k: nat) {
    && child in seen
    && rows == ParentRows(live, child) && k <= |rows|
    && (forall x :: x in seen <==> x == start || x in met)
    && start !in met
    && NoDuplicates(met)
    && (forall x :: x in pending ==> x in seen)
    && (forall x :: x in seen ==> Reaches(live, start, x))
    && (forall p, c :: Link(p, c) in live && c in seen && c !in pending && c != child ==> p in seen)
    && (forall j :: 0 <= j < k ==> rows[j] in seen)
  }

  lemma BeginExpand(live: seq<Link>, start: TaskId, seen: set<TaskId>, pending: seq<TaskId>, rest: seq<TaskId>,
                    met: seq<TaskId>, child: TaskId)
    requires WalkInv(live, start, seen, pending, met)
    requires child in pending && forall x :: x in pending <==> x == child || x in rest
    ensures ExpandInv(live, start, seen, rest, met, child, ParentRows(live, child), 0)
  {}

  lemma MeetParent(live: seq<Link>, start: TaskId, seen: set<TaskId>, pending: seq<TaskId>, met: seq<TaskId>,
                   child: TaskId, rows: seq<TaskId>, k: nat)
    requires k < |rows| && rows[k] !in seen
    requires ExpandInv(live, start, seen, pending, met, child, rows, k)
    ensures ExpandInv(live, start, seen + {rows[k]}, pending + [rows[k]], met + [rows[k]], child, rows, k + 1)
  {
    assert rows[k] in ParentRows(live, child);
    ReachesParent(live, start, child, rows[k]);
  }

  lemma EndExpand(live: seq<Link>, start: TaskId, seen: set<TaskId>, pending: seq<TaskId>, met: seq<TaskId>,
                  child: TaskId, rows: seq<TaskId>)
    requires ExpandInv(live, start, seen, pending, met, child, rows, |rows|)
    ensures WalkInv(live, start, seen, pending, met)
  {
    forall p, c | Link(p, c) in live && c in seen && c !in pending ensures p in seen {
      if c == child {
        assert p in rows;
      }
    }
  }

  lemma FinishedWalk<R>(tasks: map<TaskId, R>, links: seq<Link>, start: TaskId, seen: set<TaskId>, met: seq<TaskId>)
    requires WalkInv(LiveLinks(tasks, links), start, seen, [], met)
    ensures forall x :: x in met <==> IsAncestor(tasks, links, start, x)
  {
    var live := LiveLinks(tasks, links);
    assert ParentClosed(live, seen);
    forall x | Reaches(live, start, x) ensures x in seen {
      ClosedHoldsReachable(live, seen, start, x);
    }
  }

  /** Meets the parents of one child, in row order. */
  method MeetParents<R>(ghost tasks: map<TaskId, R>, live: seq<Link>, ghost start: TaskId, child: TaskId,
                        seen0: set<TaskId>, pending0: seq<TaskId>, met0: seq<TaskId>)
    returns (seen: set<TaskId>, pending: seq<TaskId>, met: seq<TaskId>)
    requires forall l :: l in live ==> l.parent in tasks
    requires ExpandInv(live, start, seen0, pending0, met0, child, ParentRows(live, child), 0)
    ensures WalkInv(live, start, seen, pending, met)
    ensures exists added :: met == met0 + added && pending == pending0 + added
    ensures seen0 <= seen <= seen0 + tasks.Keys
    ensures seen == seen0 ==> pending == pending0
  {
    var rows := ParentRows(live, child);
    seen, pending, met := seen0, pending0, met0;
    ghost var added: seq<TaskId> := [];
    for k := 0 to |rows|
      invariant ExpandInv(live, start, seen, pending, met, child, rows, k)
      invariant met == met0 + added && pending == pending0 + added
      invariant seen0 <= seen <= seen0 + tasks.Keys
      invariant added != [] ==> seen != seen0
    {
      if rows[k] !in seen {
        assert rows[k] in ParentRows(live, child);
        MeetParent(live, start, seen, pending, met, child, rows, k);
        seen, pending, met, added := seen + {rows[k]}, pending + [rows[k]], met + [rows[k]], added + [rows[k]];
      }
    }
    EndExpand(live, start, seen, pending, met, child, rows);
  }

  /** The visited cards that belong to a developer. */
  method KeepDevelopers<R>(tasks: map<TaskId, R>, visited: seq<TaskId>, isDeveloper: R -> bool) returns (developers: seq<TaskId>)
    requires forall x :: x in visited ==> x in tasks
    ensures forall x :: x in developers <==> x in visited && x in tasks && isDeveloper(tasks[x])
  {
    developers := [];
    for i := 0 to |visited|
      invariant forall x :: x in developers <==> x in visited[..i] && x in tasks && isDeveloper(tasks[x])
    {
      assert visited[i] in visited;
      assert visited[..i + 1] == visited[..i] + [visited[i]];
      if isDeveloper(tasks[visited[i]]) {
        developers := developers + [visited[i]];
      }
    }
    assert visited[..|visited|] == visited;
  }

  /** `_specialist_developer_ancestors`: first in, first out; keeps the developers. */
  method QueueWalk<R>(tasks: map<TaskId, R>, links: seq<Link>, start: TaskId, isDeveloper: R -> bool)
    returns (visited: seq<TaskId>, developers: seq<TaskId>)
    ensures NoDuplicates(visited) && start !in visited
    ensures forall x :: x in visited <==> IsAncestor(tasks, links, start, x)
    ensures forall x :: x in visited ==> x in tasks
    ensures forall x :: x in developers <==> x in visited && x in tasks && isDeveloper(tasks[x])
  {
    var live := LiveLinks(tasks, links);
    var seen, queue := {start}, [start];
    visited := [];
    ReachesSelf(live, start);
    while queue != []
      invariant WalkInv(live, start, seen, queue, visited)
      invariant seen <= {start} + tasks.Keys
      decreases |{start} + tasks.Keys - seen|, |queue|
    {
      hide WalkInv, ExpandInv, LiveLinks;
      ghost var seenBefore := seen;
      var child := queue[0];
      BeginExpand(live, start, seen, queue, queue[1..], visited, child);
      seen, queue, visited := MeetParents(tasks, live, start, child, seen, queue[1..], visited);
      SmallerFrontier({start} + tasks.Keys, seenBefore, seen);
    }
    FinishedWalk(tasks, links, start, seen, visited);
    assert NoDuplicates(visited) && start !in visited;
    forall x | x in visited ensures x in tasks { assert x in seen && x != start; }
    developers := KeepDevelopers(tasks, visited, isDeveloper);
  }

  /** `_ancestor_rows`: last in, first out. */
  method StackWalk<R>(tasks: map<TaskId, R>, links: seq<Link>, start: TaskId)
    returns (ancestors: seq<TaskId>)
    ensures NoDuplicates(ancestors) && start !in ancestors
    ensures forall x :: x in ancestors <==> IsAncestor(tasks, links, start, x)
    ensures forall x :: x in ancestors ==> x in tasks
  {
    var live := LiveLinks(tasks, links);
    var visited, pending := {start}, [start];
    ancestors := [];
    ReachesSelf(live, start);
    while pending != []
      invariant WalkInv(live, start, visited, pending, ancestors)
      invariant visited <= {start} + tasks.Keys
      decreases |{start} + tasks.Keys - visited|, |pending|
    {
      hide WalkInv, ExpandInv, LiveLinks;
      ghost var visitedBefore := visited;
      var child := pending[|pending| - 1];
      BeginExpand(live, start, visited, pending, pending[..|pending| - 1], ancestors, child);
      visited, pending, ancestors :=
        MeetParents(tasks, live, start, child, visited, pending[..|pending| - 1], ancestors);
      SmallerFrontier({start} + tasks.Keys, visitedBefore, visited);
    }
    FinishedWalk(tasks, links, start, visited, ancestors);
    forall x | x in ancestors ensures x in tasks { assert x in visited; }
  }

  lemma SmallerFrontier(universe: set<TaskId>, before: set<TaskId>, after: set<TaskId>)
    requires before <= after <= universe
    ensures |universe - after| <= |universe - before|
    ensures after != before ==> |universe - after| < |universe - before|
  {
    SubsetCardinality(universe - after, universe - before);
    if after != before {
      assert after - before != {} by {
        assert after == before + (after - before);
      }
      var x :| x in after - before;
      SubsetCardinality(universe - after, universe - before - {x});
    }
  }

  /** Where no link dangles, the walks visit what the three-colour search collects:
      every task reachable over the raw links. */
  lemma WalksMeetTheClosure<R>(tasks: map<TaskId, R>, links: seq<Link>, start: TaskId, x: TaskId)
    requires NoDanglingAbove(tasks, links, start)
    ensures IsAncestor(tasks, links, start, x) <==> x != start && Reaches(links, start, x)
  {
    var live := LiveLinks(tasks, links);
    forall path | IsPath(live, path, start, x) ensures IsPath(links, path, start, x) {}
    forall path | IsPath(links, path, start, x) ensures IsPath(live, path, start, x) {
      forall i | 0 <= i < |path| - 1 ensures Link(path[i + 1], path[i]) in live {
        assert IsPath(links, path[..i + 2], start, path[i + 1]);
      }
    }
  }
}
