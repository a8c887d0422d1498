/** Durable evidence that terminal convergence reads from the event log: the
    governing rework round of a stale card, the human holds laid on it since,
    and the role and parents recorded when a card was created. */
module Provenance {
  import opened Prelude
  import opened EventLog

  const REWORK_KINDS: set<string> := {"github_pr_rework", "github_pr_rework_retry"}

  const REWORK_GOVERNING_KINDS: set<string> := {
    "created", "changes_requested", "github_pr_rework", "github_pr_sync",
    "github_pr_rework_retry", "github_pr_rework_projection_failure",
    "github_pr_superseded",
    "github_blocked_resolved", "github_blocked_projection",
    "blocked", "completed", "status", "promoted", "unblocked",
    "reclaimed", "scheduled", "archived"
  }

  const ATTENTION_KIND := "github_pr_rework_attention"
  const HOLD_KINDS: set<string> := {"blocked", ATTENTION_KIND}
  const CREATION_KINDS: set<string> := {"created", "linked"}

  /** Letter case folded, for ASCII text. */
  function Folded(s: string): (f: string)
    ensures |f| == |s|
  {
    if s == [] then []
    else [if 'A' <= s[0] <= 'Z' then (s[0] as int - 'A' as int + 'a' as int) as char else s[0]] + Folded(s[1..])
  }

  predicate IsHexDigit(c: char) {
    '0' <= c <= '9' || 'a' <= c <= 'f' || 'A' <= c <= 'F'
  }

  predicate IsFullSha(s: string) {
    |s| == 40 && forall i :: 0 <= i < |s| ==> IsHexDigit(s[i])
  }

  /** Capital letters become small, and every other character stays. */
  lemma {:induction false} FoldedWhen(s: string, i: nat)
    requires i < |s|
    ensures Folded(s)[i] == if 'A' <= s[i] <= 'Z' then (s[i] as int + 32) as char else s[i]
  {
    if i > 0 { FoldedWhen(s[1..], i - 1); }
  }

  lemma HexDigits(c: char)
    ensures IsHexDigit(c) <==> c in "0123456789abcdefABCDEF"
  {}

  /** The checks on the payload of a rework event: owned by the edge, tied to
      this Issue, carrying a PR, a round and a full head, and matching the
      merged head when fresh merge evidence is at hand. */
  predicate ValidReworkPayload(payload: Payload, ref: GithubTaskRef, mergedPrs: Option<map<int, string>>) {
    var fields := Fields(payload);
    && fields.Some?
    && PyEq(Get(fields.value, "repository"), Str(ref.repository))
    && PyEq(Get(fields.value, "issue_number"), Int(ref.issueNumber))
    && PyEq(Get(fields.value, "reason"), Str("agent_rework"))
    && PyEq(Get(fields.value, "merge_authority"), Str("human"))
    && Get(fields.value, "auto_merge") == Bool(false)
    && Get(fields.value, "source") in {Str("github"), Str("github_edge_rework_recovery")}
    && PyEq(Get(fields.value, "new_status"), Str("ready"))
    && PositiveInt(Get(fields.value, "pr_number"))
    && PositiveInt(Get(fields.value, "rework_round"))
    && Get(fields.value, "head_sha").Str?
    && IsFullSha(Get(fields.value, "head_sha").s)
    && (mergedPrs.Some? ==>
          && Get(fields.value, "pr_number").i in mergedPrs.value
          && Folded(mergedPrs.value[Get(fields.value, "pr_number").i]) == Folded(Get(fields.value, "head_sha").s))
  }

  datatype Hold =
    | BlockedHold(eventId: int, createdAt: int, blockKind: Json)
    | AttentionMalformed(eventId: int, createdAt: int)
    | AttentionMismatched(eventId: int, createdAt: int)
    | CurrentRoundAttention(eventId: int, createdAt: int)

  datatype ReworkEvidence =
    | NoEvidence
    | HumanHold(hold: Hold)
    | StaleRework(eventKind: string, prNumber: int, reworkRound: int, headSha: string)

  function RoundEvidence(e: Event): (evidence: ReworkEvidence) {
    var fields := Fields(e.payload);
    if fields.Some? && Get(fields.value, "pr_number").Int? && Get(fields.value, "rework_round").Int?
       && Get(fields.value, "head_sha").Str?
    then StaleRework(e.kind, Get(fields.value, "pr_number").i, Get(fields.value, "rework_round").i, Get(fields.value, "head_sha").s)
    else NoEvidence
  }

  /** `_terminal_convergence_rework_is_current_governing_event`. */
  predicate IsCurrentGoverningEvent(log: seq<Event>, task: TaskId, rework: Event) {
    var newest := Newest(log, task, REWORK_GOVERNING_KINDS);
    && newest.Some?
    && newest.value.kind == rework.kind
    && newest.value.createdAt == rework.createdAt
    && newest.value.id == rework.id
  }

  predicate SameRoundIdentity(a: map<string, Json>, b: map<string, Json>) {
    && PyEq(Get(a, "repository"), Get(b, "repository"))
    && PyEq(Get(a, "issue_number"), Get(b, "issue_number"))
    && PyEq(Get(a, "pr_number"), Get(b, "pr_number"))
    && PyEq(Get(a, "rework_round"), Get(b, "rework_round"))
  }

  function DescribeHold(e: Event, round: map<string, Json>): (hold: Hold)
    ensures hold.eventId == e.id && hold.createdAt == e.createdAt
  {
    var fields := Fields(e.payload);
    if e.kind == "blocked" then
      BlockedHold(e.id, e.createdAt, if fields.Some? then Get(fields.value, "kind") else Null)
    else if fields.None? then AttentionMalformed(e.id, e.createdAt)
    else if !SameRoundIdentity(fields.value, round) then AttentionMismatched(e.id, e.createdAt)
    else CurrentRoundAttention(e.id, e.createdAt)
  }

  /** A block is told as such; attention counts for the round only when it names the
      same repository, Issue, request and round, as Python compares them. */
  lemma DescribeHoldWhen(e: Event, round: map<string, Json>)
    ensures var hold := DescribeHold(e, round);
            var readable := e.payload.Parsed? && e.payload.value.Object?;
            && (hold.BlockedHold? <==> e.kind == "blocked")
            && (hold.BlockedHold? ==> hold.blockKind == if readable then Get(e.payload.value.fields, "kind") else Null)
            && (hold.AttentionMalformed? <==> e.kind != "blocked" && !readable)
            && (hold.CurrentRoundAttention? <==>
                  && e.kind != "blocked" && readable
                  && PyEq(Get(e.payload.value.fields, "repository"), Get(round, "repository"))
                  && PyEq(Get(e.payload.value.fields, "issue_number"), Get(round, "issue_number"))
                  && PyEq(Get(e.payload.value.fields, "pr_number"), Get(round, "pr_number"))
                  && PyEq(Get(e.payload.value.fields, "rework_round"), Get(round, "rework_round")))
  {
    hide PyEq;
  }

  ghost predicate HeldSince(log: seq<Event>, task: TaskId, rework: Event) {
    exists e :: e in log && Concerns(e, task, HOLD_KINDS) && Later(e, rework)
  }

  /** `_terminal_convergence_current_round_human_hold`: the first hold, in event
      order, that follows the governing rework round. */
  method CurrentRoundHumanHold(log: seq<Event>, task: TaskId, rework: Event, round: map<string, Json>)
    returns (hold: Option<Hold>)
    ensures hold.Some? <==> HeldSince(log, task, rework)
    ensures hold.Some? ==> exists e ::
                && e in log && Concerns(e, task, HOLD_KINDS) && Later(e, rework)
                && hold.value == DescribeHold(e, round)
                && forall x :: x in log && Concerns(x, task, HOLD_KINDS) && Later(x, rework) ==> !Later(e, x)
  {
    var rows := Rows(log, task, HOLD_KINDS);
    for i := 0 to |rows|
      invariant forall j :: 0 <= j < i ==> !Later(rows[j], rework)
    {
      if !Later(rows[i], rework) {
        continue;
      }
      assert rows[i] in rows;
      forall x | x in log && Concerns(x, task, HOLD_KINDS) && Later(x, rework) ensures !Later(rows[i], x) {
        assert x in rows;
        var k :| 0 <= k < |rows| && rows[k] == x;
        assert k >= i;
      }
      return Some(DescribeHold(rows[i], round));
    }
    forall x | x in log && Concerns(x, task, HOLD_KINDS) ensures !Later(x, rework) {
      assert x in rows;
    }
    return None;
  }

  /** What the three scans conclude together, read off the log in one look. */
  ghost function EvidenceOf(log: seq<Event>, task: TaskId, ref: GithubTaskRef, mergedPrs: Option<map<int, string>>): ReworkEvidence {
    var newest := Newest(log, task, REWORK_GOVERNING_KINDS + {ATTENTION_KIND});
    if newest.Some? && newest.value.kind in REWORK_KINDS && ValidReworkPayload(newest.value.payload, ref, mergedPrs)
    then RoundEvidence(newest.value)
    else NoEvidence
  }

  /** A valid round still governs the card, and a hold was laid on it since. */
  ghost predicate HeldRound(log: seq<Event>, task: TaskId, ref: GithubTaskRef, mergedPrs: Option<map<int, string>>) {
    var round := Newest(log, task, REWORK_KINDS);
    && round.Some? && IsCurrentGoverningEvent(log, task, round.value)
    && ValidReworkPayload(round.value.payload, ref, mergedPrs) && HeldSince(log, task, round.value)
  }

  /** `_terminal_convergence_rework_provenance`. */
  method ReworkProvenance(log: seq<Event>, task: TaskId, ref: GithubTaskRef, mergedPrs: Option<map<int, string>>)
    returns (evidence: ReworkEvidence)
    requires DistinctIds(log)
    ensures evidence.StaleRework? <==> EvidenceOf(log, task, ref, mergedPrs).StaleRework?
    ensures evidence.StaleRework? ==> evidence == EvidenceOf(log, task, ref, mergedPrs)
    ensures evidence.HumanHold? <==> HeldRound(log, task, ref, mergedPrs)
  {
    var row := Newest(log, task, REWORK_KINDS);
    if row.None? {
      NoRoundNoEvidence(log, task);
      return NoEvidence;
    }
    ThreeScansAgree(log, task, row.value);
    if !IsCurrentGoverningEvent(log, task, row.value) {
      return NoEvidence;
    }
    if !ValidReworkPayload(row.value.payload, ref, mergedPrs) {
      return NoEvidence;
    }
    var hold := CurrentRoundHumanHold(log, task, row.value, Fields(row.value.payload).value);
    if hold.Some? {
      return HumanHold(hold.value);
    }
    return RoundEvidence(row.value);
  }

  lemma NoRoundNoEvidence(log: seq<Event>, task: TaskId)
    requires Newest(log, task, REWORK_KINDS).None?
    ensures var newest := Newest(log, task, REWORK_GOVERNING_KINDS + {ATTENTION_KIND});
            newest.Some? ==> newest.value.kind !in REWORK_KINDS
  {
    var newest := Newest(log, task, REWORK_GOVERNING_KINDS + {ATTENTION_KIND});
    assert newest.Some? ==> newest.value.taskId == task && newest.value in log;
  }

  /** For every log, the three separate scans let the newest rework event stand
      exactly when the newest event among the governing kinds and attention is a
      rework event, and then it is that one. */
  lemma ThreeScansAgree(log: seq<Event>, task: TaskId, rework: Event)
    requires DistinctIds(log) && Newest(log, task, REWORK_KINDS) == Some(rework)
    ensures var newest := Newest(log, task, REWORK_GOVERNING_KINDS + {ATTENTION_KIND});
            && newest.Some?
            && (IsCurrentGoverningEvent(log, task, rework) && !HeldSince(log, task, rework)
                <==> newest.value.kind in REWORK_KINDS)
            && (newest.value.kind in REWORK_KINDS ==> newest.value == rework)
  {
    var all := REWORK_GOVERNING_KINDS + {ATTENTION_KIND};
    assert Concerns(rework, task, all);
    var newest := Newest(log, task, all).value;
    if newest.kind in REWORK_KINDS {
      assert Concerns(newest, task, REWORK_KINDS);
      NewestIsUnique(log, task, REWORK_KINDS, newest);
      NewestIsUnique(log, task, REWORK_GOVERNING_KINDS, rework);
      forall e | e in log && Concerns(e, task, HOLD_KINDS) ensures !Later(e, rework) {
        assert Concerns(e, task, all);
      }
    }
    if IsCurrentGoverningEvent(log, task, rework) && !HeldSince(log, task, rework) {
      forall e | e in log && Concerns(e, task, all) ensures !Later(e, rework) {
        if e.kind == ATTENTION_KIND {
          assert Concerns(e, task, HOLD_KINDS);
        } else {
          assert Concerns(e, task, REWORK_GOVERNING_KINDS);
        }
      }
      NewestIsUnique(log, task, all, rework);
    }
  }

  /** The role and the parents a card was created or linked with. */
  datatype Creation = Creation(assignee: string, parents: set<TaskId>)

  /** Decimal digits, as Python prints an integer. */
  function Decimal(n: int): (text: string)
    decreases if n < 0 then 1 - n else n
  {
    if n < 0 then "-" + Decimal(-n)
    else if n < 10 then [('0' as int + n) as char]
    else Decimal(n / 10) + [('0' as int + n % 10) as char]
  }

  /** The number that decimal text stands for. */
  function ReadDecimal(text: string): (n: Option<int>) {
    if text == "" then None
    else if text[0] == '-' then Negated(ReadDigits(text[1..]))
    else ReadDigits(text)
  }

  function Negated(n: Option<int>): (m: Option<int>) {
    if n.None? then None else Some(-n.value)
  }

  function ReadDigits(text: string): (n: Option<int>) {
    if text == "" then Some(0)
    else
      var c, rest := text[|text| - 1], ReadDigits(text[..|text| - 1]);
      if '0' <= c <= '9' && rest.Some? then Some(rest.value * 10 + (c as int - '0' as int)) else None
  }

  lemma {:induction false} DigitsReadBack(n: nat)
    ensures Decimal(n) != "" && Decimal(n)[0] != '-' && ReadDigits(Decimal(n)) == Some(n)
  {
    if n < 10 {
      assert Decimal(n)[..0] == "";
    } else {
      DigitsReadBack(n / 10);
      var last := ('0' as int + n % 10) as char;
      assert Decimal(n) == Decimal(n / 10) + [last];
      assert Decimal(n)[..|Decimal(n)| - 1] == Decimal(n / 10);
    }
  }

  /** Printing a number and reading it gives the number back. */
  lemma DecimalReadsBack(n: int)
    ensures ReadDecimal(Decimal(n)) == Some(n)
  {
    if n < 0 {
      DigitsReadBack(-n);
      assert Decimal(n)[1..] == Decimal(-n);
    } else {
      DigitsReadBack(n);
    }
  }

  lemma PrintsAsWhen(j: Json, text: string)
    ensures PrintsAs(j, text) <==>
              || j == Str(text) || (j == Null && text == "None") || (j == Bool(true) && text == "True") || (j == Bool(false) && text == "False")
              || (j.Int? && text == Decimal(j.i))
  {}

  /** `str(value) == text`, for scalars other than floats. */
  predicate PrintsAs(j: Json, text: string) {
    match j
    case Str(s) => s == text
    case Null => text == "None"
    case Bool(b) => text == if b then "True" else "False"
    case Int(i) => text == Decimal(i)
    case _ => false
  }

  predicate NonEmptyString(j: Json) {
    j.Str? && j.s != ""
  }

  predicate ParentList(j: Json) {
    j.Array? && forall i :: 0 <= i < |j.items| ==> NonEmptyString(j.items[i])
  }

  ghost predicate GoodCreated(e: Event) {
    e.kind == "created" && Fields(e.payload).Some? && ParentList(Get(Fields(e.payload).value, "parents"))
  }

  ghost predicate GoodLinked(e: Event, task: TaskId) {
    && e.kind == "linked" && Fields(e.payload).Some?
    && PrintsAs(Get(Fields(e.payload).value, "child"), task)
    && NonEmptyString(Get(Fields(e.payload).value, "parent"))
  }

  /** `p` is one of the parents that event `e` records. */
  ghost predicate Records(e: Event, p: TaskId) {
    && Fields(e.payload).Some?
    && if e.kind == "created"
       then Get(Fields(e.payload).value, "parents").Array? && Str(p) in Get(Fields(e.payload).value, "parents").items
       else Get(Fields(e.payload).value, "parent") == Str(p)
  }

  /** `c` is what the creation and link events of `task` record: every one is
      well formed, exactly one creates the card and names its assignee. */
  ghost predicate IsCreationOf(log: seq<Event>, task: TaskId, c: Creation) {
    && (forall e :: e in log && Concerns(e, task, CREATION_KINDS) ==> GoodCreated(e) || GoodLinked(e, task))
    && (exists e ::
          && e in log && Concerns(e, task, {"created"})
          && Get(Fields(e.payload).value, "assignee") == Str(c.assignee)
          && forall x :: x in log && Concerns(x, task, {"created"}) ==> x == e)
    && c.assignee != ""
    && (forall p :: p in c.parents <==> exists e :: e in log && Concerns(e, task, CREATION_KINDS) && Records(e, p))
  }

  /** One event more than `scanned` has been read without finding a fault. */
  ghost predicate ScannedCreation(rows: seq<Event>, task: TaskId, created: Option<map<string, Json>>, parents: set<TaskId>) {
    && (forall e :: e in rows ==> GoodCreated(e) || GoodLinked(e, task))
    && (created.None? <==> forall e :: e in rows ==> e.kind != "created")
    && (created.Some? ==> exists e ::
          && e in rows && e.kind == "created" && Fields(e.payload) == created
          && forall x :: x in rows && x.kind == "created" ==> x == e)
    && (forall p :: p in parents <==> exists e :: e in rows && Records(e, p))
  }

  /** The text of every item, which are all strings. */
  function StringSet(items: seq<Json>): (names: set<string>)
    requires forall i :: 0 <= i < |items| ==> items[i].Str?
    ensures forall s :: s in names <==> Str(s) in items
  {
    set j | j in items :: j.s
  }

  lemma ScanOneMore(rows: seq<Event>, task: TaskId, created: Option<map<string, Json>>, parents: set<TaskId>, e: Event,
                    created': Option<map<string, Json>>, parents': set<TaskId>)
    requires ScannedCreation(rows, task, created, parents)
    requires GoodCreated(e) || GoodLinked(e, task)
    requires e.kind == "created" ==> created.None? && created' == Fields(e.payload)
    requires e.kind != "created" ==> created' == created
    requires forall p :: p in parents' <==> p in parents || Records(e, p)
    ensures ScannedCreation(rows + [e], task, created', parents')
  {
    var more := rows + [e];
    assert e in more;
    assert forall x :: x in more <==> x in rows || x == e;
    if e.kind != "created" && created.Some? {
      var c :| c in rows && c.kind == "created" && Fields(c.payload) == created
               && forall x :: x in rows && x.kind == "created" ==> x == c;
      assert c in more;
    }
    forall p ensures p in parents' <==> exists x :: x in more && Records(x, p) {
      if p in parents {
        var x :| x in rows && Records(x, p);
        assert x in more;
      }
    }
  }

  lemma ScanSettles(log: seq<Event>, task: TaskId, created: map<string, Json>, parents: set<TaskId>, assignee: string)
    requires ScannedCreation(Rows(log, task, CREATION_KINDS), task, Some(created), parents)
    requires assignee != "" && Get(created, "assignee") == Str(assignee)
    ensures IsCreationOf(log, task, Creation(assignee, parents))
  {
    var rows := Rows(log, task, CREATION_KINDS);
    var e :| e in rows && e.kind == "created" && Fields(e.payload) == Some(created)
             && forall x :: x in rows && x.kind == "created" ==> x == e;
    assert Concerns(e, task, {"created"});
    forall x | x in log && Concerns(x, task, {"created"}) ensures x == e {
      assert Concerns(x, task, CREATION_KINDS);
      assert x in rows;
    }
    forall p ensures p in parents <==> exists x :: x in log && Concerns(x, task, CREATION_KINDS) && Records(x, p) {
      if p in parents {
        var x :| x in rows && Records(x, p);
        assert x in log;
      }
      if x :| x in log && Concerns(x, task, CREATION_KINDS) && Records(x, p) {
        assert x in rows;
      }
    }
  }

  /** The recorded parents are those of the creation and those linked later. */
  lemma CreationCountsLinks(log: seq<Event>, task: TaskId, c: Creation, p: TaskId)
    requires IsCreationOf(log, task, c)
    ensures p in c.parents <==>
              || (exists e :: e in log && e.taskId == task && e.kind == "created" && NamesParent(e, p))
              || (exists e :: e in log && e.taskId == task && e.kind == "linked" && LinksParent(e, p))
    ensures forall e :: e in log && e.taskId == task && e.kind == "linked" ==>
              e.payload.Parsed? && e.payload.value.Object? && PrintsAs(Get(e.payload.value.fields, "child"), task)
  {
    hide PrintsAs;
    if p in c.parents {
      var e :| e in log && Concerns(e, task, CREATION_KINDS) && Records(e, p);
      assert if e.kind == "created" then NamesParent(e, p) else LinksParent(e, p);
    }
    if e :| e in log && e.taskId == task && e.kind == "created" && NamesParent(e, p) {
      assert Concerns(e, task, CREATION_KINDS) && Records(e, p);
    }
    if e :| e in log && e.taskId == task && e.kind == "linked" && LinksParent(e, p) {
      assert Concerns(e, task, CREATION_KINDS) && Records(e, p);
    }
  }

  ghost predicate NamesParent(e: Event, p: TaskId) {
    && e.payload.Parsed? && e.payload.value.Object?
    && Get(e.payload.value.fields, "parents").Array? && Str(p) in Get(e.payload.value.fields, "parents").items
  }

  ghost predicate LinksParent(e: Event, p: TaskId) {
    e.payload.Parsed? && e.payload.value.Object? && Get(e.payload.value.fields, "parent") == Str(p)
  }

  /** At most one creation fits a log. */
  lemma CreationIsUnique(log: seq<Event>, task: TaskId, c: Creation, d: Creation)
    requires IsCreationOf(log, task, c) && IsCreationOf(log, task, d)
    ensures c == d
  {
    assert c.parents == d.parents;
  }

  /** The creation that a log records, if any. */
  ghost function CreationOf(log: seq<Event>, task: TaskId): (c: Option<Creation>)
    ensures c.Some? ==> IsCreationOf(log, task, c.value)
    ensures c.None? ==> forall d :: !IsCreationOf(log, task, d)
  {
    if exists d :: IsCreationOf(log, task, d) then var d :| IsCreationOf(log, task, d); Some(d) else None
  }

  /** `_task_creation_provenance`. */
  method TaskCreationProvenance(log: seq<Event>, task: TaskId) returns (creation: Option<Creation>)
    requires DistinctIds(log)
    ensures creation == CreationOf(log, task)
  {
    creation := ScanCreation(log, task);
    if creation.Some? && CreationOf(log, task).Some? {
      CreationIsUnique(log, task, creation.value, CreationOf(log, task).value);
    }
  }

  /** One creation or link event: the parents it records, unless it is malformed. */
  method ScanRow(e: Event, task: TaskId) returns (recorded: Option<set<TaskId>>)
    requires e.kind in CREATION_KINDS
    ensures recorded.Some? <==> GoodCreated(e) || GoodLinked(e, task)
    ensures recorded.Some? ==> forall p :: p in recorded.value <==> Records(e, p)
  {
    hide PrintsAs;
    var fields := Fields(e.payload);
    if fields.None? {
      return None;
    }
    if e.kind == "created" {
      var listed := Get(fields.value, "parents");
      return if ParentList(listed) then Some(StringSet(listed.items)) else None;
    }
    var parent := Get(fields.value, "parent");
    if !PrintsAs(Get(fields.value, "child"), task) || !NonEmptyString(parent) {
      return None;
    }
    return Some({parent.s});
  }

  method ScanCreation(log: seq<Event>, task: TaskId) returns (creation: Option<Creation>)
    requires DistinctIds(log)
    ensures creation.Some? ==> IsCreationOf(log, task, creation.value)
    ensures creation.None? ==> forall c :: !IsCreationOf(log, task, c)
  {
    hide IsCreationOf, GoodCreated, GoodLinked, Records;
    var rows := Rows(log, task, CREATION_KINDS);
    RowsDistinct(log, task, CREATION_KINDS);
    var created: Option<map<string, Json>> := None;
    var parents: set<TaskId> := {};
    for i := 0 to |rows|
      invariant ScannedCreation(rows[..i], task, created, parents)
    {
      hide ScannedCreation;
      var e := rows[i];
      assert e in rows && Concerns(e, task, CREATION_KINDS);
      if e.kind == "created" && created.Some? {
        SecondCreated(log, task, rows, created.value, parents, e, i);
        return None;
      }
      var recorded := ScanRow(e, task);
      if recorded.None? {
        BadRow(log, task, e);
        return None;
      }
      ghost var created0, parents0 := created, parents;
      if e.kind == "created" {
        created := Fields(e.payload);
      }
      parents := parents + recorded.value;
      ScanOneMore(rows[..i], task, created0, parents0, e, created, parents);
      assert rows[..i + 1] == rows[..i] + [e];
    }
    assert rows[..|rows|] == rows;
    if created.None? {
      NeverCreated(log, task, rows);
      return None;
    }
    var assignee := Get(created.value, "assignee");
    if !NonEmptyString(assignee) {
      NoAssignee(log, task, rows, created.value, parents);
      return None;
    }
    ScanSettles(log, task, created.value, parents, assignee.s);
    return Some(Creation(assignee.s, parents));
  }

  lemma BadRow(log: seq<Event>, task: TaskId, e: Event)
    requires e in log && Concerns(e, task, CREATION_KINDS) && !GoodCreated(e) && !GoodLinked(e, task)
    ensures forall k :: !IsCreationOf(log, task, k)
  {}

  lemma SecondCreated(log: seq<Event>, task: TaskId, rows: seq<Event>, created: map<string, Json>, parents: set<TaskId>, e: Event, i: nat)
    requires DistinctIds(rows) && rows == Rows(log, task, CREATION_KINDS) && i < |rows|
    requires ScannedCreation(rows[..i], task, Some(created), parents) && rows[i] == e && e.kind == "created"
    ensures forall k :: !IsCreationOf(log, task, k)
  {
    var c :| c in rows[..i] && c.kind == "created";
    var j :| 0 <= j < i && rows[j] == c;
    assert c.id != e.id;
    assert c in rows && e in rows;
    assert Concerns(c, task, {"created"}) && Concerns(e, task, {"created"});
  }

  lemma NeverCreated(log: seq<Event>, task: TaskId, rows: seq<Event>)
    requires rows == Rows(log, task, CREATION_KINDS) && forall e :: e in rows ==> e.kind != "created"
    ensures forall k :: !IsCreationOf(log, task, k)
  {
    assert forall e :: e in log && Concerns(e, task, {"created"}) ==> e in rows;
  }

  lemma NoAssignee(log: seq<Event>, task: TaskId, rows: seq<Event>, created: map<string, Json>, parents: set<TaskId>)
    requires rows == Rows(log, task, CREATION_KINDS)
    requires ScannedCreation(rows, task, Some(created), parents)
    requires !NonEmptyString(Get(created, "assignee"))
    ensures forall k :: !IsCreationOf(log, task, k)
  {
    var e :| e in rows && e.kind == "created" && Fields(e.payload) == Some(created);
    assert e in log && Concerns(e, task, {"created"});
  }
}
