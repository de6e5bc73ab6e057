/** What every run keeps: the log replays to the row, the commands mirror the log,
  * and nothing recorded is ever lost.
  */
module LifecycleRuns {
  import opened Wrappers
  import opened LifecycleStates
  import opened LifecycleEvidence
  import opened LifecycleTransition

  // ----- runs -----

  lemma {:induction false} ExecConcat(s: Store, a: seq<Event>, b: seq<Event>)
    ensures Exec(s, a + b) == Exec(Exec(s, a), b)
    decreases |b|
  {
    hide Apply;
    if b == [] {
      assert a + b == a;
    } else {
      var n := |b| - 1;
      ExecConcat(s, a, b[..n]);
      assert (a + b)[..|a + b| - 1] == a + b[..n];
    }
  }

  // ----- the evidence of a run -----

  /** Inserts as events. */
  function Records(rows: seq<Row>): seq<Event> {
    seq(|rows|, i requires 0 <= i < |rows| => Record(rows[i]))
  }

  lemma {:induction false} RecordsRun(s: Store, rows: seq<Row>)
    ensures Exec(s, Records(rows)) == s.(evidence := Recorded(s.evidence, rows))
    decreases |rows|
  {
    hide Inserted;
    if rows != [] {
      var n := |rows| - 1;
      RecordsRun(s, rows[..n]);
      assert Records(rows)[..n] == Records(rows[..n]);
    }
  }

  /** The rows offered to the evidence tables in a run. */
  function RowsOf(events: seq<Event>): seq<Row> {
    if events == [] then []
    else
      var last := events[|events| - 1];
      RowsOf(events[..|events| - 1]) + if last.Record? then [last.evidenceRow] else []
  }

  /** Nothing but inserts moves the evidence. */
  lemma {:induction false} RunRecords(s: Store, events: seq<Event>)
    ensures Exec(s, events).evidence == Recorded(s.evidence, RowsOf(events))
    decreases |events|
  {
    hide Apply, Inserted;
    if events != [] {
      var n := |events| - 1;
      RunRecords(s, events[..n]);
      OnlyInsertsRecord(Exec(s, events[..n]), events[n]);
      if events[n].Record? {
        assert RowsOf(events)[..|RowsOf(events)| - 1] == RowsOf(events[..n]);
      } else {
        assert RowsOf(events) == RowsOf(events[..n]);
      }
    }
  }

  lemma {:induction false} OnlyInsertsRecord(s: Store, e: Event)
    ensures Apply(s, e).evidence == if e.Record? then Inserted(s.evidence, e.evidenceRow) else s.evidence
  {
    hide Inserted;
  }

  // ----- nothing recorded is lost -----

  predicate Grows(s: Store, s': Store) {
    && s.history <= s'.history
    && s.revisions <= s'.revisions
    && SubMap(s.commands, s'.commands)
    && EvidenceGrows(s.evidence, s'.evidence)
  }

  lemma {:induction false} StepGrows(s: Store, e: Event)
    ensures Grows(s, Apply(s, e))
  {
  }

  lemma {:induction false} RunGrows(s: Store, events: seq<Event>)
    ensures Grows(s, Exec(s, events))
    decreases |events|
  {
    if events != [] {
      var n := |events| - 1;
      RunGrows(s, events[..n]);
      StepGrows(Exec(s, events[..n]), events[n]);
    }
  }

  /** Every prefix of a run leaves behind what the whole run still holds. */
  lemma {:induction false} PrefixGrows(s: Store, events: seq<Event>, i: nat)
    requires i <= |events|
    ensures Grows(Exec(s, events[..i]), Exec(s, events))
  {
    assert events == events[..i] + events[i..];
    ExecConcat(s, events[..i], events[i..]);
    RunGrows(Exec(s, events[..i]), events[i..]);
  }

  // ----- the log -----

  /** The columns of the workspace row that the log determines. */
  datatype Summary = Summary(
    state: State, version: int, fenced: bool, workspaceRevision: int,
    purgeStartedAt: Option<int>, destroyedAt: Option<int>)

  function Summarize(w: Workspace): Summary {
    Summary(w.state, w.lifecycleVersion, w.writeFenced, w.workspaceRevision, w.purgeStartedAt, w.destroyedAt)
  }

  predicate IsReopen(h: HistoryRow) {
    Reopens(h.priorState, h.newState)
  }

  function ReopenCount(history: seq<HistoryRow>): nat {
    if history == [] then 0
    else ReopenCount(history[..|history| - 1]) + if IsReopen(history[|history| - 1]) then 1 else 0
  }

  function StateAfter(history: seq<HistoryRow>): State {
    if history == [] then Provisioning else history[|history| - 1].newState
  }

  /** Each row starts where the one before it ended and follows the transition table. */
  predicate Chained(history: seq<HistoryRow>) {
    history == []
    || (var n := |history| - 1;
        && Chained(history[..n])
        && history[n].version == n + 2
        && history[n].priorState == StateAfter(history[..n])
        && Allowed(history[n].priorState, history[n].newState))
  }

  lemma {:induction false} ChainedAt(history: seq<HistoryRow>, i: nat)
    requires Chained(history) && i < |history|
    ensures Chained(history[..i])
    ensures history[i].version == i + 2
    ensures history[i].priorState == StateAfter(history[..i])
    ensures Allowed(history[i].priorState, history[i].newState)
    decreases |history|
  {
    var n := |history| - 1;
    if i < n {
      ChainedAt(history[..n], i);
      assert history[..n][..i] == history[..i];
    }
  }

  lemma {:induction false} VersionsNumbered(history: seq<HistoryRow>)
    requires Chained(history)
    ensures forall i | 0 <= i < |history| :: history[i].version == i + 2
  {
    forall i | 0 <= i < |history|
      ensures history[i].version == i + 2
    {
      ChainedAt(history, i);
    }
  }

  /** The log folded from the row a workspace is created with. */
  function Replay(history: seq<HistoryRow>): Summary {
    if history == [] then Summary(Provisioning, 1, false, 1, None, None)
    else
      var before := Replay(history[..|history| - 1]);
      var h := history[|history| - 1];
      Summary(h.newState, h.version, !Writable(h.newState),
              before.workspaceRevision + if IsReopen(h) then 1 else 0,
              if h.newState.Purging? then Some(h.recordedAt) else before.purgeStartedAt,
              if h.newState.Destroyed? then Some(h.recordedAt) else before.destroyedAt)
  }

  lemma {:induction false} ReplayCountsReopens(history: seq<HistoryRow>)
    ensures Replay(history).workspaceRevision == 1 + ReopenCount(history)
    ensures Replay(history).state == StateAfter(history)
  {
    if history != [] {
      ReplayCountsReopens(history[..|history| - 1]);
    }
  }

  /** The revision rows the log calls for: the first and one per reopening. */
  function RevisionLog(history: seq<HistoryRow>, first: RevisionRow): (r: seq<RevisionRow>)
    ensures |r| == 1 + ReopenCount(history) && r[0] == first
    ensures forall k | 1 <= k < |r| :: r[k].revision == k + 1 && r[k].state.Active?
  {
    if history == [] then [first]
    else
      var before := RevisionLog(history[..|history| - 1], first);
      var h := history[|history| - 1];
      if IsReopen(h) then
        before + [RevisionRow(|before| + 1, h.newState, first.policies, CreatedBy(h.origin), h.recordedAt)]
      else before
  }

  predicate FirstAgrees(first: RevisionRow, row: Workspace) {
    first.revision == 1 && first.state.Provisioning? && first.policies == row.policies
  }

  predicate LogAgrees(s: Store) {
    && Chained(s.history)
    && Summarize(s.row) == Replay(s.history)
    && s.row.lifecycleVersion == |s.history| + 1
    && |s.revisions| > 0 && FirstAgrees(s.revisions[0], s.row)
    && s.revisions == RevisionLog(s.history, s.revisions[0])
    && (forall i | 0 <= i < |s.history| :: CreatedBy(s.history[i].origin).Some?)
  }

  /** The numbers the next rows would get are not taken. */
  lemma {:induction false} NextNumbersFree(s: Store)
    requires LogAgrees(s)
    ensures forall h | h in s.history :: h.version != s.row.lifecycleVersion + 1
    ensures forall v | v in s.revisions :: v.revision != s.row.workspaceRevision + 1
  {
    VersionsNumbered(s.history);
    ReplayCountsReopens(s.history);
    hide Chained, Replay, ReopenCount;
    forall v | v in s.revisions
      ensures v.revision != s.row.workspaceRevision + 1
    {
      var k :| 0 <= k < |s.revisions| && s.revisions[k] == v;
    }
  }

  /** Commands and history rows are in one-to-one correspondence, and all complete. */
  predicate CommandsMirrorLog(commands: map<string, Command>, history: seq<HistoryRow>) {
    && (forall key | key in commands :: Completes(commands[key], key, history))
    && (forall i | 0 <= i < |history| :: Answered(commands, history[i].operationKey, i))
  }

  predicate Answered(commands: map<string, Command>, key: string, i: int) {
    key in commands && commands[key].expectedVersion == i + 1
  }

  predicate Completes(c: Command, key: string, history: seq<HistoryRow>) {
    && c.completedAt.Some? && c.outcomeState == Some(c.target)
    && c.outcomeVersion == Some(c.expectedVersion + 1)
    && 1 <= c.expectedVersion <= |history|
    && history[c.expectedVersion - 1].operationKey == key
    && history[c.expectedVersion - 1].newState == c.target
  }

  /** An outbox event that reports one row of the log, under the digest of its command. */
  predicate Reports(o: OutboxEvent, history: seq<HistoryRow>, commands: map<string, Command>) {
    && 2 <= o.aggregateVersion <= |history| + 1
    && var h := history[o.aggregateVersion - 2];
    && h.operationKey in commands
    && o == EventOf(h, commands[h.operationKey].digest)
  }

  /** The events still undelivered report distinct rows, in the order of the log. */
  predicate OutboxOrdered(outbox: seq<OutboxEvent>, history: seq<HistoryRow>, commands: map<string, Command>) {
    && (forall k | 0 <= k < |outbox| :: Reports(outbox[k], history, commands))
    && (forall j, k | 0 <= j < k < |outbox| :: outbox[j].aggregateVersion < outbox[k].aggregateVersion)
  }

  predicate Sound(s: Store) {
    && LogAgrees(s)
    && CommandsMirrorLog(s.commands, s.history)
    && OutboxOrdered(s.outbox, s.history, s.commands)
    && Constraints(s.evidence)
  }

  lemma {:induction false} ReplaySnoc(history: seq<HistoryRow>, h: HistoryRow, row: Workspace)
    requires Summarize(row) == Replay(history) && row.lifecycleVersion == |history| + 1
    requires h.priorState == row.state && h.version == |history| + 2
    ensures Summarize(Moved(row, h.newState, h.recordedAt)) == Replay(history + [h])
    ensures h.priorState == StateAfter(history)
  {
  }

  lemma {:induction false} CommitKeepsLog(s: Store, req: Request, now: int)
    requires LogAgrees(s) && Refusal(s, req, now).None?
    ensures LogAgrees(Committed(s, req, now))
  {
    var h := HistoryOf(s.row, req, now);
    assert req.expectedVersion == |s.history| + 1 && Allowed(s.row.state, req.target);
    ReplaySnoc(s.history, h, s.row);
    ReplayCountsReopens(s.history);
    assert (s.history + [h])[..|s.history|] == s.history;
  }

  lemma {:induction false} MirrorSnoc(
      commands: map<string, Command>, history: seq<HistoryRow>, key: string, c: Command, h: HistoryRow)
    requires CommandsMirrorLog(commands, history) && key !in commands
    requires h.operationKey == key && c.expectedVersion == |history| + 1
    requires Completes(c, key, history + [h])
    ensures CommandsMirrorLog(commands[key := c], history + [h])
  {
  }

  lemma {:induction false} OutboxSnoc(
      outbox: seq<OutboxEvent>, history: seq<HistoryRow>, commands: map<string, Command>, h: HistoryRow, c: Command)
    requires OutboxOrdered(outbox, history, commands) && h.version == |history| + 2
    requires h.operationKey !in commands
    ensures OutboxOrdered(outbox + [EventOf(h, c.digest)], history + [h], commands[h.operationKey := c])
  {
  }

  lemma {:induction false} OutboxDrained(
      outbox: seq<OutboxEvent>, history: seq<HistoryRow>, commands: map<string, Command>, i: nat)
    requires OutboxOrdered(outbox, history, commands) && i < |outbox|
    ensures OutboxOrdered(outbox[..i] + outbox[i + 1..], history, commands)
  {
  }

  lemma {:induction false} CommitSound(s: Store, req: Request, now: int)
    requires Sound(s) && Refusal(s, req, now).None?
    ensures Sound(Committed(s, req, now))
  {
    var h := HistoryOf(s.row, req, now);
    CommitKeepsLog(s, req, now);
    assert h.version == |s.history| + 2 && req.operationKey !in s.commands;
    MirrorSnoc(s.commands, s.history, req.operationKey, CommandOf(req, now), h);
    OutboxSnoc(s.outbox, s.history, s.commands, h, CommandOf(req, now));
  }

  lemma {:induction false} CallSound(s: Store, req: Request, now: int)
    requires Sound(s)
    ensures Sound(Apply(s, Call(req, now)))
  {
    if Commits(s, Call(req, now)) {
      CommitSound(s, req, now);
      assert Apply(s, Call(req, now)) == Committed(s, req, now);
    } else {
      assert Apply(s, Call(req, now)) == s;
    }
  }

  lemma {:induction false} RecordSound(s: Store, r: Row)
    requires Sound(s)
    ensures Sound(Apply(s, Record(r)))
  {
    ConstraintsKept(s.evidence, r);
  }

  lemma {:induction false} DrainSound(s: Store, i: nat)
    requires Sound(s)
    ensures Sound(Apply(s, ExecutorDrain(i)))
  {
    if i < |s.outbox| {
      OutboxDrained(s.outbox, s.history, s.commands, i);
    }
  }

  lemma {:induction false} OtherSound(s: Store, e: Event)
    requires Sound(s) && !e.Call? && !e.Record? && !e.ExecutorDrain?
    ensures Sound(Apply(s, e))
  {
  }

  lemma {:induction false} StepSound(s: Store, e: Event)
    requires Sound(s)
    ensures Sound(Apply(s, e))
  {
    hide Sound, Apply;
    match e
    case Call(req, now) => CallSound(s, req, now);
    case Record(r) => RecordSound(s, r);
    case ExecutorDrain(i) => DrainSound(s, i);
    case _ => OtherSound(s, e);
  }

  lemma {:induction false} SoundRun(s: Store, events: seq<Event>)
    requires Sound(s)
    ensures Sound(Exec(s, events))
    decreases |events|
  {
    if events != [] {
      SoundRun(s, events[..|events| - 1]);
      StepSound(Exec(s, events[..|events| - 1]), events[|events| - 1]);
    }
  }

  lemma {:induction false} Reachable(creation: Creation, events: seq<Event>)
    ensures Sound(Exec(Initial(creation), events))
  {
    SoundRun(Initial(creation), events);
  }

  /** After any run the log determines every lifecycle column and every revision row. */
  lemma {:induction false} LogReplays(creation: Creation, events: seq<Event>)
    ensures var s := Exec(Initial(creation), events);
            && Chained(s.history)
            && Summarize(s.row) == Replay(s.history)
            && s.row.state == StateAfter(s.history)
            && s.row.lifecycleVersion == |s.history| + 1
            && s.row.writeFenced == !Writable(s.row.state)
            && s.row.workspaceRevision == 1 + ReopenCount(s.history)
            && s.revisions == RevisionLog(s.history, FirstRevision(creation))
            && s.row.policies == creation.policies
  {
    Reachable(creation, events);
    RunGrows(Initial(creation), events);
    ReplayCountsReopens(Exec(Initial(creation), events).history);
  }

  /** The part of the above that the theorems about single logs start from. */
  lemma {:induction false} ChainedRun(creation: Creation, events: seq<Event>)
    ensures var s := Exec(Initial(creation), events);
            && Chained(s.history)
            && s.row.state == StateAfter(s.history)
            && s.row.workspaceRevision == 1 + ReopenCount(s.history)
  {
    LogReplays(creation, events);
  }
}
