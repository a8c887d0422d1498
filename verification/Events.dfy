/** The `task_events` table and the JSON payloads stored in it. */
module EventLog {
  import opened Prelude

  datatype Json =
    | Null
    | Bool(b: bool)
    | Int(i: int)
    | Real(r: real)
    | Str(s: string)
    | Array(items: seq<Json>)
    | Object(fields: map<string, Json>)

  /** The outcome of decoding a payload column; an empty column decodes as `{}`. */
  datatype Payload = Malformed | Parsed(value: Json)

  datatype Event = Event(id: int, taskId: TaskId, kind: string, payload: Payload, createdAt: int)

  /** A payload that is not a JSON object carries no fields. */
  function Fields(p: Payload): (fields: Option<map<string, Json>>) {
    if p.Parsed? && p.value.Object? then Some(p.value.fields) else None
  }

  function Get(fields: map<string, Json>, key: string): Json {
    if key in fields then fields[key] else Null
  }

  function Number(j: Json): Option<real> {
    match j
    case Bool(b) => Some(if b then 1.0 else 0.0)
    case Int(i) => Some(i as real)
    case Real(r) => Some(r)
    case _ => None
  }

  /** Python's `==` on decoded scalars: booleans and floats compare as numbers. */
  predicate PyEq(a: Json, b: Json) {
    if Number(a).Some? && Number(b).Some? then Number(a) == Number(b) else a == b
  }

  /** Text, null and containers equal only themselves; truth values are one and zero;
      and numbers equal numbers of the same value. */
  lemma PyEqWhen(a: Json, b: Json)
    ensures !(a.Bool? || a.Int? || a.Real?) || !(b.Bool? || b.Int? || b.Real?) ==> (PyEq(a, b) <==> a == b)
    ensures a.Int? && b.Int? ==> (PyEq(a, b) <==> a.i == b.i)
    ensures a.Int? && b.Bool? ==> (PyEq(a, b) <==> a.i == if b.b then 1 else 0)
    ensures a.Int? && b.Real? ==> (PyEq(a, b) <==> a.i as real == b.r)
    ensures a.Bool? && b.Bool? ==> (PyEq(a, b) <==> a.b == b.b)
    ensures a.Real? && b.Bool? ==> (PyEq(a, b) <==> a.r == if b.b then 1.0 else 0.0)
    ensures PyEq(a, b) <==> PyEq(b, a)
  {}

  predicate PositiveInt(j: Json) {
    j.Int? && j.i > 0
  }

  /** `id` is the primary key of the table. */
  ghost predicate DistinctIds(log: seq<Event>) {
    forall i, j :: 0 <= i < j < |log| ==> log[i].id != log[j].id
  }

  /** `a` comes after `b` in `(created_at, id)` order. */
  predicate Later(a: Event, b: Event) {
    a.createdAt > b.createdAt || (a.createdAt == b.createdAt && a.id > b.id)
  }

  predicate Concerns(e: Event, task: TaskId, kinds: set<string>) {
    e.taskId == task && e.kind in kinds
  }

  /** `... WHERE task_id = ? AND kind IN (...) ORDER BY created_at DESC, id DESC LIMIT 1`. */
  function Newest(log: seq<Event>, task: TaskId, kinds: set<string>): (newest: Option<Event>)
    ensures newest.None? <==> forall e :: e in log ==> !Concerns(e, task, kinds)
    ensures newest.Some? ==>
              && newest.value in log && Concerns(newest.value, task, kinds)
              && forall e :: e in log && Concerns(e, task, kinds) ==> !Later(e, newest.value)
  {
    if log == [] then None
    else
      var rest := Newest(log[1..], task, kinds);
      assert forall e :: e in log <==> e == log[0] || e in log[1..];
      if !Concerns(log[0], task, kinds) then rest
      else if rest.Some? && Later(rest.value, log[0]) then rest
      else Some(log[0])
  }

  /** With distinct ids the newest event is the only one that nothing follows. */
  lemma NewestIsUnique(log: seq<Event>, task: TaskId, kinds: set<string>, e: Event)
    requires DistinctIds(log)
    requires e in log && Concerns(e, task, kinds)
    requires forall x :: x in log && Concerns(x, task, kinds) ==> !Later(x, e)
    ensures Newest(log, task, kinds) == Some(e)
  {
    var n := Newest(log, task, kinds).value;
    assert !Later(n, e) && !Later(e, n);
    SameIdSameEvent(log, e, n);
  }

  lemma SameIdSameEvent(log: seq<Event>, a: Event, b: Event)
    requires DistinctIds(log) && a in log && b in log && a.id == b.id
    ensures a == b
  {
    var i :| 0 <= i < |log| && log[i] == a;
    var j :| 0 <= j < |log| && log[j] == b;
    assert i == j;
  }

  /** No row of `rows` is later than one that follows it. */
  ghost predicate Ascending(rows: seq<Event>) {
    forall i, j :: 0 <= i < j < |rows| ==> !Later(rows[i], rows[j])
  }

  function InsertRow(rows: seq<Event>, e: Event): (grown: seq<Event>)
    requires Ascending(rows)
    ensures Ascending(grown)
    ensures forall x :: x in grown <==> x == e || x in rows
  {
    if rows == [] then [e]
    else if Later(e, rows[0]) then
      var rest := InsertRow(rows[1..], e);
      assert forall x :: x in rows[1..] ==> !Later(rows[0], x);
      assert forall x :: x in rest ==> !Later(rows[0], x);
      [rows[0]] + rest
    else [e] + rows
  }

  /** `... WHERE task_id = ? AND kind IN (...) ORDER BY created_at ASC, id ASC`. */
  function Rows(log: seq<Event>, task: TaskId, kinds: set<string>): (rows: seq<Event>)
    ensures Ascending(rows)
    ensures forall e :: e in rows <==> e in log && Concerns(e, task, kinds)
  {
    if log == [] then []
    else
      var rest := Rows(log[1..], task, kinds);
      if Concerns(log[0], task, kinds) then InsertRow(rest, log[0]) else rest
  }

  lemma {:induction false} InsertRowDistinct(rows: seq<Event>, e: Event)
    requires Ascending(rows) && DistinctIds(rows) && forall x :: x in rows ==> x.id != e.id
    ensures DistinctIds(InsertRow(rows, e))
  {
    if rows != [] && Later(e, rows[0]) {
      InsertRowDistinct(rows[1..], e);
      var rest := InsertRow(rows[1..], e);
      forall x | x in rest ensures x.id != rows[0].id {
        if x != e {
          assert x in rows[1..];
        }
      }
    }
  }

  lemma {:induction false} RowsDistinct(log: seq<Event>, task: TaskId, kinds: set<string>)
    requires DistinctIds(log)
    ensures DistinctIds(Rows(log, task, kinds))
  {
    if log != [] {
      RowsDistinct(log[1..], task, kinds);
      InsertRowDistinctIfConcerned(log, task, kinds);
    }
  }

  lemma InsertRowDistinctIfConcerned(log: seq<Event>, task: TaskId, kinds: set<string>)
    requires log != [] && DistinctIds(log) && DistinctIds(Rows(log[1..], task, kinds))
    ensures DistinctIds(Rows(log, task, kinds))
  {
    var rest := Rows(log[1..], task, kinds);
    forall x | x in rest ensures x.id != log[0].id {
      assert x in log[1..];
    }
    InsertRowDistinct(rest, log[0]);
  }

  /** The next value of the autoincrement key: above every id handed out so far. */
  function NextId(log: seq<Event>): (id: int)
    ensures forall e :: e in log ==> e.id < id
  {
    if log == [] then 1
    else
      var rest := NextId(log[1..]);
      assert forall e :: e in log <==> e == log[0] || e in log[1..];
      if log[0].id < rest then rest else log[0].id + 1
  }

  function AppendEvent(log: seq<Event>, task: TaskId, kind: string, payload: map<string, Json>, now: int): (grown: seq<Event>)
    ensures DistinctIds(log) ==> DistinctIds(grown)
    ensures |grown| == |log| + 1 && grown[..|log|] == log
    ensures var e := grown[|log|]; e.taskId == task && e.kind == kind && e.payload == Parsed(Object(payload)) && e.createdAt == now
    ensures forall e :: e in log && e.createdAt <= now ==> Later(grown[|log|], e)
  {
    log + [Event(NextId(log), task, kind, Parsed(Object(payload)), now)]
  }
}
