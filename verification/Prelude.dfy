/** Vocabulary shared by every module of the model. */
module Prelude {

  datatype Option<+T> = None | Some(value: T)

  datatype Result<+T, +E> = Ok(value: T) | Err(error: E)

  /** The identifier of a Kanban card. */
  type TaskId = string

  /** The source Issue of a card, from the provenance header of its body. */
  datatype GithubTaskRef = GithubTaskRef(repository: string, issueNumber: int, targetBranch: string)

  /** One `task_links` row.  The table may hold the same row several times. */
  datatype Link = Link(parent: TaskId, child: TaskId)

  /** `SELECT parent_id FROM task_links WHERE child_id = ?`, in table order. */
  function ParentRows(links: seq<Link>, child: TaskId): (rows: seq<TaskId>)
    ensures forall p :: p in rows <==> Link(p, child) in links
  {
    if links == [] then []
    else if links[0].child == child then [links[0].parent] + ParentRows(links[1..], child)
    else ParentRows(links[1..], child)
  }

  function Min(a: nat, b: nat): nat { if a < b then a else b }

  function Max(a: nat, b: nat): nat { if a < b then b else a }

  lemma SubsetCardinality<T>(a: set<T>, b: set<T>)
    requires a <= b
    ensures |a| <= |b|
  {
    if a != {} {
      var x :| x in a;
      SubsetCardinality(a - {x}, b - {x});
    }
  }

  /** An injection from `a` into `b`. */
  lemma InjectionCardinality<T(!new), U>(a: set<T>, b: set<U>, f: T -> U)
    requires forall x :: x in a ==> f(x) in b
    requires forall x, y :: x in a && y in a && f(x) == f(y) ==> x == y
    ensures |a| <= |b|
  {
    if a != {} {
      var x :| x in a;
      InjectionCardinality(a - {x}, b - {f(x)}, f);
    }
  }
}
