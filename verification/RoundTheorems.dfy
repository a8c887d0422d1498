/** One-shot commands, numbered rounds and isolated deliveries, over every log
    that the edge's writers can build. */
module RoundTheorems {
  import opened Prelude
  import opened Provenance
  import opened ReworkRounds
  import opened DeliveryGate

  /** One serialised pass, at DB time `now`, over the log of one card. */
  datatype Step =
    | ByLabel(now: int, ref: GithubTaskRef, pr: PullRequest, command: LabelEvent)
    | ByRetry(now: int, ref: GithubTaskRef, prNumber: int, head: string, baseline: int, comment: Comment)
    | Requeue(now: int)
    | Deliver(now: int, ref: GithubTaskRef, task: TaskId, prNumber: int, prHead: string, commands: seq<LabelEvent>,
              run: Option<RoundRun>, comments: seq<Handoff>, seen: EdgeReads)
    | Note(now: int)

  function Written(log: seq<Entry>, step: Step): (e: Entry)
    requires step.Requeue? || step.Deliver? ==> LatestEvent(log).Some?
  {
    match step
    case ByLabel(now, ref, pr, command) => Opened(now, NewRound(log, ref, pr.number, pr.head, None, None, Some(command)))
    case ByRetry(now, ref, prNumber, head, _, c) => Opened(now, NewRound(log, ref, prNumber, head, Some(c.id), Some(c.id), None))
    case Requeue(now) => Requeued(now, log[LatestEvent(log).value].round)
    case Deliver(now, _, _, _, _, _, _, _, _) =>
      var e := log[LatestEvent(log).value];
      var accepted := Accepted(e, step);
      Delivered(now, e.round.number, e.round.request, if accepted.Ok? then accepted.value else "")
    case Note(now) => Attention(now)
  }

  /** The delivery gate's verdict on what a delivering pass has read. */
  function Accepted(e: Entry, step: Step): (head: Result<string, Refusal>)
    requires Governing(e) && step.Deliver?
  {
    Evidence(step.ref, step.task, step.prNumber, step.prHead, e, step.commands, step.run, step.comments, true, step.seen)
  }

  /** When a writer acts, and what it appends. */
  ghost predicate Next(log: seq<Entry>, log': seq<Entry>, step: Step) {
    && (forall e :: e in log ==> e.at <= step.now)
    && match step
       case ByLabel(_, _, _, command) => FreshLabel(log, command) && log' == log + [Written(log, step)]
       case ByRetry(_, _, _, _, baseline, c) =>
         LatestEvent(log).Some? && Signals(c, baseline, ConsumedRetries(log)) && log' == log + [Written(log, step)]
       case Requeue(_) => LatestEvent(log).Some? && log' == log + [Written(log, step)]
       case Deliver(_, _, _, _, _, _, _, _, _) =>
         && LatestEvent(log).Some? && Accepted(log[LatestEvent(log).value], step).Ok?
         && log' == log + [Written(log, step)]
       case Note(_) => log' == log + [Written(log, step)]
  }

  /** A delivered head moves on from the round's first, unless a maintainer asked again. */
  predicate AcceptedHead(head: string, round: Round) {
    Folded(head) == Folded(round.head) ==> round.retry.Some?
  }

  /** A retry is not stamped before a label command that was already consumed. */
  ghost predicate RetriesStampedLate(log: seq<Entry>, step: Step) {
    step.ByRetry? ==> forall e :: e in log && ByCommand(e) ==> e.round.labelAt.value <= step.now
  }

  ghost predicate IsHistory(logs: seq<seq<Entry>>, steps: seq<Step>) {
    && |logs| == |steps| + 1 && logs[0] == []
    && forall i :: 0 <= i < |steps| ==> Next(logs[i], logs[i + 1], steps[i])
  }

  // ---------------------------------------------------------------- invariants

  predicate ByCommand(e: Entry) {
    e.Opened? && e.round.labelAt.Some? && e.round.labelId.Some?
  }

  /** Earlier in time, or equally early and with the smaller event id. */
  predicate CommandLess(a: Entry, b: Entry)
    requires ByCommand(a) && ByCommand(b)
  {
    || a.round.labelAt.value < b.round.labelAt.value
    || (a.round.labelAt.value == b.round.labelAt.value && a.round.labelId.value < b.round.labelId.value)
  }

  ghost predicate CommandsIncrease(log: seq<Entry>) {
    forall i, j :: 0 <= i < j < |log| && ByCommand(log[i]) && ByCommand(log[j]) ==> CommandLess(log[i], log[j])
  }

  ghost predicate RetriesOnce(log: seq<Entry>) {
    forall i, j :: 0 <= i < j < |log| && log[i].Opened? && log[j].Opened? && log[i].round.retry.Some? ==>
      log[i].round.retry != log[j].round.retry
  }

  ghost predicate Numbered(log: seq<Entry>) {
    forall i :: 0 <= i < |log| && log[i].Opened? ==> log[i].round.number == CountOpened(log[..i]) + 1
  }

  /** Every round is opened by a command or by a retry comment. */
  ghost predicate Shaped(log: seq<Entry>) {
    forall i :: 0 <= i < |log| && log[i].Opened? ==>
      || (log[i].round.labelAt.Some? && log[i].round.labelId.Some? && log[i].round.retry.None? && log[i].round.request.None?)
      || (log[i].round.labelAt.None? && log[i].round.retry.Some? && log[i].round.request == log[i].round.retry)
  }

  /** The entry that opened the round in which entry `j` was written. */
  function OpenedAt(log: seq<Entry>, j: nat): (i: Option<nat>)
    requires j < |log|
    ensures i.Some? ==> i.value <= j && log[i.value].Opened? && forall m :: i.value < m <= j ==> !log[m].Opened?
    ensures i.None? ==> forall m :: 0 <= m <= j ==> !log[m].Opened?
  {
    if log[j].Opened? then Some(j) else if j == 0 then None else OpenedAt(log, j - 1)
  }

  /** Requeues and deliveries speak for the round that was open. */
  ghost predicate Bound(log: seq<Entry>, j: nat)
    requires j < |log|
  {
    && (log[j].Requeued? ==> OpenedAt(log, j).Some? && log[OpenedAt(log, j).value].round == log[j].round)
    && (log[j].Delivered? ==>
          && OpenedAt(log, j).Some?
          && log[OpenedAt(log, j).value].round.number == log[j].number
          && log[OpenedAt(log, j).value].round.request == log[j].request
          && AcceptedHead(log[j].head, log[OpenedAt(log, j).value].round))
  }

  ghost predicate AllBound(log: seq<Entry>) {
    forall j :: 0 <= j < |log| ==> Bound(log, j)
  }

  /** No consumed command is newer than the event in force. */
  ghost predicate Spent(log: seq<Entry>) {
    LatestEvent(log).Some? ==> forall i :: 0 <= i < |log| && ByCommand(log[i]) ==> SpentBy(log[i], log[LatestEvent(log).value])
  }

  predicate SpentBy(c: Entry, e: Entry)
    requires ByCommand(c) && Governing(e)
  {
    if e.round.labelAt.Some? && e.round.labelId.Some?
    then c.round.labelAt.value < e.round.labelAt.value
         || (c.round.labelAt.value == e.round.labelAt.value && c.round.labelId.value <= e.round.labelId.value)
    else c.round.labelAt.value <= e.at
  }

  /** What holds of every history. */
  ghost predicate BaseInv(log: seq<Entry>) {
    Ordered(log) && RetriesOnce(log) && Numbered(log) && Shaped(log) && AllBound(log)
  }

  /** What holds once retries are stamped late. */
  ghost predicate LogInv(log: seq<Entry>) {
    BaseInv(log) && CommandsIncrease(log) && Spent(log)
  }

  // ------------------------------------------------------------------- appends

  lemma LatestAppend(log: seq<Entry>, x: Entry)
    requires forall e :: e in log ==> e.at <= x.at
    ensures LatestEvent(log + [x]) == if Governing(x) then Some(|log|) else LatestEvent(log)
  {
    assert (log + [x])[..|log|] == log;
    if LatestEvent(log).Some? {
      assert log[LatestEvent(log).value] in log;
    }
  }

  lemma {:induction false} OpenedAtAppend(log: seq<Entry>, x: Entry, j: nat)
    requires j < |log|
    ensures OpenedAt(log + [x], j) == OpenedAt(log, j)
  {
    if !log[j].Opened? && j > 0 {
      OpenedAtAppend(log, x, j - 1);
    }
  }

  lemma {:induction false} SameOpening(log: seq<Entry>, k: nat, j: nat)
    requires k <= j < |log|
    requires forall m :: k < m <= j ==> !log[m].Opened?
    ensures OpenedAt(log, j) == OpenedAt(log, k)
  {
    if k < j {
      SameOpening(log, k, j - 1);
    }
  }

  /** The event in force carries the payload of the round that is open. */
  lemma InForceIsOpen(log: seq<Entry>)
    requires Ordered(log) && AllBound(log) && LatestEvent(log).Some?
    ensures var k := LatestEvent(log).value;
            && OpenedAt(log, |log| - 1) == OpenedAt(log, k)
            && OpenedAt(log, k).Some? && log[OpenedAt(log, k).value].round == log[k].round
  {
    var k := LatestEvent(log).value;
    forall m | k < m < |log| ensures !log[m].Opened? {
      assert log[k].at <= log[m].at;
    }
    SameOpening(log, k, |log| - 1);
    assert Bound(log, k);
  }

  lemma BoundStays(log: seq<Entry>, x: Entry, j: nat)
    requires j < |log| && Bound(log, j)
    ensures Bound(log + [x], j)
  {
    OpenedAtAppend(log, x, j);
    hide OpenedAt, AcceptedHead;
  }

  /** The gate accepts no head that did not move on, unless a maintainer asked again. */
  lemma AcceptedMovesOn(e: Entry, step: Step)
    requires Governing(e) && step.Deliver? && Accepted(e, step).Ok?
    ensures AcceptedHead(Accepted(e, step).value, e.round)
  {
    hide Evidence;
    AcceptedDeliveryIsSound(step.ref, step.task, step.prNumber, step.prHead, e, step.commands, step.run, step.comments, true, step.seen);
    FoldTwice(step.prHead);
    FoldTwice(step.seen.liveHead);
  }

  /** What a step writes speaks for the round that is open. */
  lemma WrittenIsBound(log: seq<Entry>, step: Step)
    requires Ordered(log) && AllBound(log)
    requires step.Requeue? || step.Deliver? ==> LatestEvent(log).Some?
    requires step.Deliver? ==> Accepted(log[LatestEvent(log).value], step).Ok?
    ensures Bound(log + [Written(log, step)], |log|)
  {
    hide LatestEvent, AllBound, Accepted, AcceptedHead, Ordered;
    var n := |log|;
    var log' := log + [Written(log, step)];
    if step.Requeue? || step.Deliver? {
      InForceIsOpen(log);
      if step.Deliver? { AcceptedMovesOn(log[LatestEvent(log).value], step); }
      assert OpenedAt(log', n) == OpenedAt(log', n - 1);
      OpenedAtAppend(log, Written(log, step), n - 1);
    }
  }

  lemma BoundAppend(log: seq<Entry>, log': seq<Entry>, step: Step)
    requires Ordered(log) && AllBound(log) && Next(log, log', step)
    ensures AllBound(log')
  {
    hide Bound, LatestEvent, FreshLabel, Accepted, Ordered;
    WrittenIsBound(log, step);
    forall j | 0 <= j < |log| ensures Bound(log', j) {
      BoundStays(log, Written(log, step), j);
    }
  }

  lemma NumberedAppend(log: seq<Entry>, log': seq<Entry>, step: Step)
    requires Numbered(log) && Next(log, log', step)
    ensures Numbered(log')
  {
    forall i | 0 <= i < |log'| && log'[i].Opened? ensures log'[i].round.number == CountOpened(log'[..i]) + 1 {
      if i < |log| {
        assert log'[..i] == log[..i];
      } else {
        assert log'[..i] == log;
      }
    }
  }

  /** A fresh command is newer than every command consumed so far. */
  lemma FreshIsNewest(log: seq<Entry>, command: LabelEvent, x: Entry, i: nat)
    requires Spent(log) && FreshLabel(log, command) && LatestEvent(log).Some?
    requires i < |log| && ByCommand(log[i])
    requires ByCommand(x) && x.round.labelAt == Some(command.at) && x.round.labelId == command.id
    ensures CommandLess(log[i], x)
  {
    assert SpentBy(log[i], log[LatestEvent(log).value]);
  }

  lemma CommandsAppend(log: seq<Entry>, log': seq<Entry>, step: Step)
    requires CommandsIncrease(log) && Spent(log) && Next(log, log', step)
    ensures CommandsIncrease(log')
  {
    var n := |log|;
    forall i, j | 0 <= i < j < |log'| && ByCommand(log'[i]) && ByCommand(log'[j]) ensures CommandLess(log'[i], log'[j]) {
      if j == n {
        assert Governing(log[i]);
        FreshIsNewest(log, step.command, log'[n], i);
      }
    }
  }

  /** What is spent stays spent under the entry that a step writes. */
  lemma SpentOne(log: seq<Entry>, log': seq<Entry>, step: Step, i: nat)
    requires Spent(log) && Next(log, log', step) && RetriesStampedLate(log, step)
    requires i < |log| && ByCommand(log[i]) && LatestEvent(log).Some?
    ensures Governing(log'[|log|]) ==> SpentBy(log[i], log'[|log|])
  {
    hide LatestEvent, FreshLabel;
    var k := LatestEvent(log).value;
    assert SpentBy(log[i], log[k]);
    assert log[i] in log && log[k] in log;
    if step.ByLabel? {
      assert step.command.id.Some? by { FreshIsIdentified(log, step.command); }
      FreshIsNewest(log, step.command, log'[|log|], i);
    }
  }

  lemma FreshIsIdentified(log: seq<Entry>, command: LabelEvent)
    requires FreshLabel(log, command)
    ensures command.id.Some?
  {}

  lemma NextAppends(log: seq<Entry>, log': seq<Entry>, step: Step)
    requires Next(log, log', step)
    ensures |log'| == |log| + 1 && log' == log + [log'[|log|]]
    ensures forall e :: e in log ==> e.at <= log'[|log|].at
  {}

  lemma SelfSpent(e: Entry)
    ensures ByCommand(e) ==> SpentBy(e, e)
  {}

  lemma SpentAppend(log: seq<Entry>, log': seq<Entry>, step: Step)
    requires Spent(log) && Next(log, log', step) && RetriesStampedLate(log, step)
    ensures Spent(log')
  {
    hide FreshLabel, RetriesStampedLate, Next, LatestEvent, SpentBy;
    var n := |log|;
    NextAppends(log, log', step);
    LatestAppend(log, log'[n]);
    SelfSpent(log'[n]);
    forall i | LatestEvent(log').Some? && 0 <= i < |log'| && ByCommand(log'[i])
      ensures SpentBy(log'[i], log'[LatestEvent(log').value])
    {
      if i < n {
        assert Governing(log[i]);
        SpentOne(log, log', step, i);
      }
    }
  }

  lemma RetriesAppend(log: seq<Entry>, log': seq<Entry>, step: Step)
    requires RetriesOnce(log) && Next(log, log', step)
    ensures RetriesOnce(log')
  {
    forall i, j | 0 <= i < j < |log'| && log'[i].Opened? && log'[j].Opened? && log'[i].round.retry.Some?
      ensures log'[i].round.retry != log'[j].round.retry
    {
      if j == |log| {
        assert log[i] in log && log[i].round.retry.value in ConsumedRetries(log);
      }
    }
  }

  lemma ShapedAppend(log: seq<Entry>, log': seq<Entry>, step: Step)
    requires Ordered(log) && Shaped(log) && Next(log, log', step)
    ensures Ordered(log') && Shaped(log')
  {
    assert forall i :: 0 <= i < |log| ==> log[i] in log;
  }

  lemma NextKeepsBase(log: seq<Entry>, log': seq<Entry>, step: Step)
    requires BaseInv(log) && Next(log, log', step)
    ensures BaseInv(log')
  {
    hide RetriesOnce, AllBound, Numbered, Ordered, Shaped, Next;
    ShapedAppend(log, log', step);
    RetriesAppend(log, log', step);
    BoundAppend(log, log', step);
    NumberedAppend(log, log', step);
  }

  lemma NextKeeps(log: seq<Entry>, log': seq<Entry>, step: Step)
    requires LogInv(log) && Next(log, log', step) && RetriesStampedLate(log, step)
    ensures LogInv(log')
  {
    hide Spent, CommandsIncrease, BaseInv, Next, RetriesStampedLate;
    NextKeepsBase(log, log', step);
    CommandsAppend(log, log', step);
    SpentAppend(log, log', step);
  }

  lemma {:induction false} HistoryBase(logs: seq<seq<Entry>>, steps: seq<Step>, i: nat)
    requires IsHistory(logs, steps) && i < |logs|
    ensures BaseInv(logs[i])
  {
    hide Next;
    if i > 0 {
      HistoryBase(logs, steps, i - 1);
      NextKeepsBase(logs[i - 1], logs[i], steps[i - 1]);
    }
  }

  lemma {:induction false} HistoryKeeps(logs: seq<seq<Entry>>, steps: seq<Step>, i: nat)
    requires IsHistory(logs, steps) && i < |logs|
    requires forall k :: 0 <= k < i ==> RetriesStampedLate(logs[k], steps[k])
    ensures LogInv(logs[i])
  {
    hide Next, RetriesStampedLate;
    if i > 0 {
      HistoryKeeps(logs, steps, i - 1);
      NextKeeps(logs[i - 1], logs[i], steps[i - 1]);
    }
  }

  /** Each step writes one entry: entry `k` is what step `k` wrote on the log so far. */
  lemma {:induction false} EntriesAreWritten(logs: seq<seq<Entry>>, steps: seq<Step>, n: nat, k: nat)
    requires IsHistory(logs, steps) && n < |logs|
    ensures |logs[n]| == n
    ensures k < n ==> logs[n][..k] == logs[k] && Next(logs[k], logs[k + 1], steps[k]) && logs[k + 1][k] == logs[n][k]
  {
    hide LatestEvent, FreshLabel, Accepted;
    if n > 0 {
      EntriesAreWritten(logs, steps, n - 1, k);
      NextAppends(logs[n - 1], logs[n], steps[n - 1]);
      assert logs[n][..n - 1] == logs[n - 1];
      if k < n - 1 {
        assert logs[n][..k] == logs[n - 1][..k];
      }
    }
  }

  // ------------------------------------------------------------------ theorems

  /** Over every history, no retry comment opens two rounds, and round numbers
      increase. */
  lemma RetriesAreOneShot(logs: seq<seq<Entry>>, steps: seq<Step>, n: nat, i: nat, j: nat)
    requires IsHistory(logs, steps) && n < |logs| && i < j < |logs[n]|
    requires logs[n][i].Opened? && logs[n][j].Opened?
    ensures logs[n][i].round.retry.Some? ==> logs[n][i].round.retry != logs[n][j].round.retry
    ensures logs[n][i].round.number < logs[n][j].round.number
  {
    hide IsHistory;
    HistoryBase(logs, steps, n);
    CountGrows(logs[n], i, j);
  }

  /** No label command opens two rounds: the commands of successive label rounds
      strictly increase in (time, event id), if no retry is stamped before a command
      that was already consumed. */
  lemma CommandsAreOneShot(logs: seq<seq<Entry>>, steps: seq<Step>, n: nat, i: nat, j: nat)
    requires IsHistory(logs, steps) && n < |logs| && i < j < |logs[n]|
    requires forall k :: 0 <= k < n ==> RetriesStampedLate(logs[k], steps[k])
    requires ByCommand(logs[n][i]) && ByCommand(logs[n][j])
    ensures CommandLess(logs[n][i], logs[n][j])
    ensures var (a, b) := (logs[n][i].round, logs[n][j].round);
            a.labelAt.value < b.labelAt.value || (a.labelAt == b.labelAt && a.labelId.value < b.labelId.value)
  {
    hide IsHistory, RetriesStampedLate, BaseInv;
    HistoryKeeps(logs, steps, n);
  }

  lemma {:induction false} CountGrows(log: seq<Entry>, i: nat, j: nat)
    requires i < j <= |log| && log[i].Opened?
    ensures CountOpened(log[..i]) < CountOpened(log[..j])
    decreases j
  {
    assert log[..j][..j - 1] == log[..j - 1];
    if i < j - 1 {
      CountGrows(log, i, j - 1);
    }
  }

  lemma {:induction false} EveryNumberIsUsed(log: seq<Entry>, n: nat)
    requires Numbered(log) && 1 <= n <= CountOpened(log)
    ensures exists i :: 0 <= i < |log| && log[i].Opened? && log[i].round.number == n
  {
    var m := |log| - 1;
    assert log[..m] + [log[m]] == log;
    if n <= CountOpened(log[..m]) {
      assert Numbered(log[..m]) by {
        forall i | 0 <= i < m && log[..m][i].Opened? ensures log[..m][i].round.number == CountOpened(log[..m][..i]) + 1 {
          assert log[..m][..i] == log[..i];
        }
      }
      EveryNumberIsUsed(log[..m], n);
      var i :| 0 <= i < m && log[..m][i].Opened? && log[..m][i].round.number == n;
      assert log[i].round.number == n;
    } else {
      assert log[m].round.number == n;
    }
  }

  /** Over every history, the rounds carry exactly the numbers 1 to their count. */
  lemma RoundsAreNumbered(logs: seq<seq<Entry>>, steps: seq<Step>, n: nat, m: int)
    requires IsHistory(logs, steps) && n < |logs|
    ensures 1 <= m <= CountOpened(logs[n]) <==> exists i :: 0 <= i < |logs[n]| && logs[n][i].Opened? && logs[n][i].round.number == m
  {
    hide IsHistory;
    var log := logs[n];
    HistoryBase(logs, steps, n);
    if 1 <= m <= CountOpened(log) {
      EveryNumberIsUsed(log, m);
    }
    forall i | 0 <= i < |log| && log[i].Opened? ensures 1 <= log[i].round.number <= CountOpened(log) {
      CountGrows(log, i, |log|);
      assert log[..|log|] == log;
    }
  }

  /** The hypothesis is needed: just after a retry round is written, a command is
      accepted exactly when it is dated after that entry, consumed before or not. */
  lemma RetryForgetsCommands(log: seq<Entry>, log': seq<Entry>, step: Step, command: LabelEvent)
    requires Next(log, log', step) && step.ByRetry? && command.id.Some?
    ensures FreshLabel(log', command) <==> command.at > step.now && command.at > 0
  {
    LatestAppend(log, log'[|log|]);
  }

  /** Right after a label round, whose command `(a, i)` it consumed, an identified
      command is fresh exactly when it is later than the entry and the command, or
      shares the command's second, not before the entry, with a larger id. */
  lemma LabelRoundAdmitsLater(log: seq<Entry>, log': seq<Entry>, step: Step, command: LabelEvent)
    requires Next(log, log', step) && step.ByLabel? && command.id.Some?
    ensures step.command.id.Some?
    ensures FreshLabel(log', command) <==>
              || (command.at > step.now && command.at > step.command.at)
              || (command.at == step.command.at && step.now <= command.at && command.id.value > step.command.id.value)
  {
    LatestAppend(log, log'[|log|]);
    FreshWhen(log', command);
    FreshIsIdentified(log, step.command);
  }

  /** A requeue of the round in force moves only the entry time: the command that
      opened the round still bounds what is fresh. */
  lemma RequeueAdmitsLater(log: seq<Entry>, log': seq<Entry>, step: Step, command: LabelEvent)
    requires Next(log, log', step) && step.Requeue? && command.id.Some?
    ensures LatestEvent(log).Some?
    ensures var round := log[LatestEvent(log).value].round;
            FreshLabel(log', command) <==>
              || (command.at > step.now && command.at > (if round.labelAt.Some? then round.labelAt.value else 0))
              || ( && round.labelAt == Some(command.at) && step.now <= command.at
                   && round.labelId.Some? && command.id.value > round.labelId.value)
  {
    LatestAppend(log, log'[|log|]);
    FreshWhen(log', command);
  }

  /** Over every log, a trusted label that is later than everything the log
      knows of opens the next round, whatever kind of round is in force. */
  lemma LaterCommandOpens(log: seq<Entry>, status: string, prs: seq<PullRequest>, trusted: set<string>, command: LabelEvent, ref: GithubTaskRef)
    requires status in {"review", "ready", "blocked"}
    requires |Labelled(prs)| == 1 && LatestLabel(Labelled(prs)[0].events) == Some(command)
    requires command.id.Some? && command.actor in trusted && command.at > 0
    requires forall e :: e in log ==> e.at < command.at
    requires forall e :: e in log && Governing(e) && e.round.labelAt.Some? ==> e.round.labelAt.value < command.at
    ensures Evaluate(status, prs, trusted, true, log) == AgentRework(Labelled(prs)[0], command)
    ensures forall now :: now >= command.at ==>
              Next(log, log + [Written(log, ByLabel(now, ref, Labelled(prs)[0], command))],
                   ByLabel(now, ref, Labelled(prs)[0], command))
  {
    FreshWhen(log, command);
    if LatestEvent(log).Some? {
      assert log[LatestEvent(log).value] in log;
    }
  }

  /** Over every history, a delivery was accepted by the gate against the event then
      in force, and its head moved on from the first head of its round, unless a
      maintainer asked again. */
  lemma DeliveriesWereAccepted(logs: seq<seq<Entry>>, steps: seq<Step>, n: nat, k: nat)
    requires IsHistory(logs, steps) && n < |logs| && k < |logs[n]| && logs[n][k].Delivered?
    ensures k < |steps| && steps[k].Deliver? && LatestEvent(logs[k]).Some?
    ensures Accepted(logs[k][LatestEvent(logs[k]).value], steps[k]) == Ok(logs[n][k].head)
    ensures OpenedAt(logs[n], k).Some? && AcceptedHead(logs[n][k].head, logs[n][OpenedAt(logs[n], k).value].round)
  {
    hide Accepted, AcceptedHead, FreshLabel, LatestEvent;
    EntriesAreWritten(logs, steps, n, 0);
    EntriesAreWritten(logs, steps, n, k);
    assert Next(logs[k], logs[k + 1], steps[k]);
    EntriesAreWritten(logs, steps, k, 0);
    HistoryBase(logs, steps, n);
    assert Bound(logs[n], k);
  }

  /** Over every history, what speaks for an event was recorded in its round. */
  lemma DeliveriesAreIsolated(logs: seq<seq<Entry>>, steps: seq<Step>, n: nat, g: nat, k: nat)
    requires IsHistory(logs, steps) && n < |logs| && g < |logs[n]| && Governing(logs[n][g])
    requires k < |logs[n]| && Delivers(logs[n][k], logs[n][g])
    ensures OpenedAt(logs[n], k).Some? && OpenedAt(logs[n], k) == OpenedAt(logs[n], g)
  {
    hide IsHistory;
    var log := logs[n];
    HistoryBase(logs, steps, n);
    hide RetriesOnce, Shaped, Ordered;
    assert Bound(log, k) && Bound(log, g);
    var a, b := OpenedAt(log, k).value, OpenedAt(log, g).value;
    if a < b {
      CountGrows(log, a, b);
    } else if b < a {
      CountGrows(log, b, a);
    }
  }

  /** Round isolation: what the lookup returns for an event was recorded in that
      event's round, accepted by the gate, and is the newest such delivery. */
  lemma CurrentDeliveryIsOfTheRound(logs: seq<seq<Entry>>, steps: seq<Step>, n: nat, g: nat, ref: Option<GithubTaskRef>, pr: Option<int>)
    requires IsHistory(logs, steps) && n < |logs| && g < |logs[n]| && Governing(logs[n][g])
    requires CurrentDelivery(logs[n], logs[n][g], ref, pr).Some?
    ensures var k := CurrentDelivery(logs[n], logs[n][g], ref, pr).value;
            && OpenedAt(logs[n], k).Some? && OpenedAt(logs[n], k) == OpenedAt(logs[n], g)
            && AcceptedHead(logs[n][k].head, logs[n][OpenedAt(logs[n], g).value].round)
            && forall j :: k < j < |logs[n]| && logs[n][j].Delivered? && logs[n][j].at >= logs[n][g].at ==>
                 OpenedAt(logs[n], j) != OpenedAt(logs[n], g)
  {
    hide IsHistory, Delivers, AcceptedHead, CurrentDelivery;
    var log, k := logs[n], CurrentDelivery(logs[n], logs[n][g], ref, pr).value;
    DeliveriesAreIsolated(logs, steps, n, g, k);
    assert log[k].Delivered? by { SpeaksIsDelivered(log[k], log[g]); }
    DeliveriesWereAccepted(logs, steps, n, k);
    forall j | k < j < |log| && log[j].Delivered? && log[j].at >= log[g].at ensures OpenedAt(log, j) != OpenedAt(log, g) {
      if OpenedAt(log, j) == OpenedAt(log, g) {
        RoundDeliveriesAreFound(logs, steps, n, g, j);
      }
    }
  }

  lemma SpeaksIsDelivered(d: Entry, e: Entry)
    requires Governing(e) && Delivers(d, e)
    ensures d.Delivered?
  {}

  /** Conversely, a delivery recorded in the round, at or after the event, speaks for it. */
  lemma RoundDeliveriesAreFound(logs: seq<seq<Entry>>, steps: seq<Step>, n: nat, g: nat, k: nat)
    requires IsHistory(logs, steps) && n < |logs| && g < |logs[n]| && Governing(logs[n][g])
    requires k < |logs[n]| && logs[n][k].Delivered? && logs[n][k].at >= logs[n][g].at
    requires OpenedAt(logs[n], k) == OpenedAt(logs[n], g)
    ensures Delivers(logs[n][k], logs[n][g])
  {
    hide IsHistory;
    HistoryBase(logs, steps, n);
    hide RetriesOnce, Shaped, Numbered, Ordered;
    assert Bound(logs[n], k) && Bound(logs[n], g);
  }
}
