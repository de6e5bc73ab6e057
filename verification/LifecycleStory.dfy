/** The five tables tell the same story: each column of each row goes back to one call. */
module LifecycleStory {
  import opened Wrappers
  import opened LifecycleStates
  import opened LifecycleEvidence
  import opened LifecycleTransition
  import opened LifecycleRuns
  import opened LifecycleWitness
  import opened LifecycleLog

  /** What call `i` left in the history, and what it found. */
  predicate HistoryTells(before: Store, e: Event, h: HistoryRow, k: int) {
    && e.Call?
    && h.version == k + 2 && e.req.expectedVersion == k + 1
    && h.operationKey == e.req.operationKey && e.req.operationKey != ""
    && h.priorState == before.row.state && h.newState == e.req.target
    && h.origin.actor == e.req.origin.actor && h.origin.service == e.req.origin.service
    && (h.origin.actor.Some? || h.origin.service.Some?)
    && h.origin.authority == e.req.origin.authority
    && h.origin.correlation == e.req.origin.correlation && h.origin.causation == e.req.origin.causation
    && h.recordedAt == e.now
  }

  predicate CommandTells(commands: map<string, Command>, e: Event, k: int)
    requires e.Call?
  {
    && e.req.operationKey in commands
    && var c := commands[e.req.operationKey];
    && c.digest == e.req.digest && c.target == e.req.target && c.expectedVersion == k + 1
    && c.outcomeState == Some(e.req.target) && c.outcomeVersion == Some(k + 2) && c.completedAt == Some(e.now)
  }

  /** Row `k` of the history and its command were written by call `i`, column by column. */
  predicate Tells(s: Store, events: seq<Event>, i: int, k: int) {
    && 0 <= i < |events| && 0 <= k < |Exec(s, events).history|
    && HistoryTells(Exec(s, events[..i]), events[i], Exec(s, events).history[k], k)
    && CommandTells(Exec(s, events).commands, events[i], k)
  }

  lemma {:induction false} CommitTells(s: Store, e: Event)
    requires LogAgrees(s) && Commits(s, e)
    ensures |Apply(s, e).history| == |s.history| + 1
    ensures HistoryTells(s, e, Apply(s, e).history[|s.history|], |s.history|)
    ensures CommandTells(Apply(s, e).commands, e, |s.history|)
    ensures Apply(s, e).row.revision == s.row.revision + 1
  {
    hide Gate, Checkpointed;
  }

  /** Every row of every history was written by one call of the run, whose columns it has, and so
    * was the command of its key. */
  lemma {:induction false} EveryRowTold(creation: Creation, events: seq<Event>, k: nat) returns (i: int)
    requires k < |Exec(Initial(creation), events).history|
    ensures Tells(Initial(creation), events, i, k)
    ensures |Exec(Initial(creation), events[..i]).history| == k
  {
    hide HistoryTells, CommandTells, LogAgrees;
    var s := Initial(creation);
    i := CommitPoint(s, events, k);
    var before := Exec(s, events[..i]);
    assert LogAgrees(before) by { Reachable(creation, events[..i]); }
    CommitTells(before, events[i]);
    ExecNext(s, events, i);
    PrefixGrows(s, events, i + 1);
    CommandKept(Exec(s, events[..i + 1]).commands, Exec(s, events).commands, events[i], k);
  }

  lemma {:induction false} ExecNext(s: Store, events: seq<Event>, i: int)
    requires 0 <= i < |events|
    ensures Exec(s, events[..i + 1]) == Apply(Exec(s, events[..i]), events[i])
  {
    hide Apply;
    assert events[..i + 1][..i] == events[..i];
  }

  lemma {:induction false} CommandKept(a: map<string, Command>, b: map<string, Command>, e: Event, k: int)
    requires e.Call? && CommandTells(a, e, k) && SubMap(a, b)
    ensures CommandTells(b, e, k)
  {
  }

  /** The state in which row `k` finds the workspace. */
  function FoundBy(history: seq<HistoryRow>, k: nat): State
    requires k <= |history|
  {
    if k == 0 then Provisioning else history[k - 1].newState
  }

  /** Each row starts in the state the one before it ended in; the first in PROVISIONING, and the
    * workspace stands where the last one ended. */
  lemma {:induction false} HistoryIsChain(creation: Creation, events: seq<Event>)
    ensures var s := Exec(Initial(creation), events);
            && (forall k: nat | k < |s.history| :: s.history[k].priorState == FoundBy(s.history, k))
            && s.row.state == FoundBy(s.history, |s.history|)
  {
    hide Exec, Chained;
    var history := Exec(Initial(creation), events).history;
    ChainedRun(creation, events);
    forall k: nat | k < |history|
      ensures history[k].priorState == FoundBy(history, k)
    {
      RowStartsThere(history, k);
    }
  }

  lemma {:induction false} RowStartsThere(history: seq<HistoryRow>, k: nat)
    requires Chained(history) && k < |history|
    ensures history[k].priorState == FoundBy(history, k)
  {
    hide Chained;
    ChainedAt(history, k);
  }

  // ----- the outbox -----

  /** An event and the row it reports, column by column, with the digest of the call. */
  predicate Publishes(o: OutboxEvent, h: HistoryRow, call: Event) {
    && call.Call?
    && o.aggregateVersion == h.version
    && o.priorState == h.priorState && o.newState == h.newState
    && o.operationKey == h.operationKey && o.correlation == h.origin.correlation
    && o.createdAt == h.recordedAt && o.payloadDigest == call.req.digest
  }

  /** Every event still in the outbox has the columns of its history row and of its call. */
  lemma {:induction false} EveryEventTold(creation: Creation, events: seq<Event>, n: nat) returns (i: int, k: int)
    requires n < |Exec(Initial(creation), events).outbox|
    ensures Tells(Initial(creation), events, i, k)
    ensures var s := Exec(Initial(creation), events);
            Publishes(s.outbox[n], s.history[k], events[i])
  {
    hide Exec, LogAgrees, HistoryTells;
    var s := Exec(Initial(creation), events);
    Reachable(creation, events);
    assert Reports(s.outbox[n], s.history, s.commands);
    k := s.outbox[n].aggregateVersion - 2;
    i := EveryRowTold(creation, events, k);
    RowHasKey(Initial(creation), events, i, k);
  }

  lemma {:induction false} RowHasKey(s: Store, events: seq<Event>, i: int, k: int)
    requires Tells(s, events, i, k)
    ensures events[i].Call?
    ensures Exec(s, events).history[k].operationKey == events[i].req.operationKey
    ensures Exec(s, events).history[k].version == k + 2
  {
  }

  /** Where a consumer stands who has read the first `n` events. */
  function ReachedBy(outbox: seq<OutboxEvent>, n: nat): State
    requires n <= |outbox|
  {
    if n == 0 then Provisioning else outbox[n - 1].newState
  }

  lemma {:induction false} EventOfRow(creation: Creation, events: seq<Event>, n: nat)
    requires forall e | e in events :: !e.ExecutorDrain?
    ensures var s := Exec(Initial(creation), events);
            && |s.outbox| == |s.history|
            && (n < |s.outbox| ==>
                  && s.outbox[n].aggregateVersion == n + 2
                  && s.outbox[n].priorState == s.history[n].priorState
                  && s.outbox[n].newState == s.history[n].newState)
  {
    hide Exec, Tells;
    var s := Exec(Initial(creation), events);
    RunUndrained(creation, events);
    if n < |s.outbox| {
      var i, k := EveryEventTold(creation, events, n);
      RowHasKey(Initial(creation), events, i, k);
    }
  }

  /** A consumer of an undrained outbox follows the workspace: event by event it starts from
    * PROVISIONING at version 1, each event takes it one version on from the state it is in, and
    * it ends in the state and at the version of the row. */
  lemma {:induction false} OutboxReplays(creation: Creation, events: seq<Event>)
    requires forall e | e in events :: !e.ExecutorDrain?
    ensures var s := Exec(Initial(creation), events);
            && |s.outbox| == s.row.lifecycleVersion - 1
            && (forall n: nat | n < |s.outbox| ::
                  && s.outbox[n].aggregateVersion == n + 2
                  && s.outbox[n].priorState == ReachedBy(s.outbox, n))
            && s.row.state == ReachedBy(s.outbox, |s.outbox|)
  {
    hide Exec;
    var s := Exec(Initial(creation), events);
    EventOfRow(creation, events, 0);
    LogReplays(creation, events);
    HistoryIsChain(creation, events);
    forall n: nat | n < |s.outbox|
      ensures s.outbox[n].aggregateVersion == n + 2
      ensures s.outbox[n].priorState == s.history[n].priorState && s.outbox[n].newState == s.history[n].newState
    {
      EventOfRow(creation, events, n);
    }
    hide Replay, Chained;
    assert forall n: nat | n <= |s.outbox| :: ReachedBy(s.outbox, n) == FoundBy(s.history, n);
  }

  // ----- the revisions -----

  /** A revision row and the reopening that wrote it. */
  predicate Revises(r: RevisionRow, h: HistoryRow, number: int, policies: string) {
    && h.priorState.Reopening? && h.newState.Active?
    && r.revision == number && r.state.Active? && r.policies == policies
    && r.createdBy == (if h.origin.actor.Some? then h.origin.actor else h.origin.service)
    && r.recordedAt == h.recordedAt
  }

  lemma {:induction false} RevisionBehind(history: seq<HistoryRow>, first: RevisionRow, n: nat) returns (k: nat)
    requires 1 <= n < |RevisionLog(history, first)|
    ensures k < |history| && ReopenCount(history[..k]) == n - 1
    ensures Revises(RevisionLog(history, first)[n], history[k], n + 1, first.policies)
    decreases |history|
  {
    var last := |history| - 1;
    if n < |RevisionLog(history[..last], first)| {
      k := RevisionBehind(history[..last], first, n);
      assert history[..last][..k] == history[..k];
    } else {
      k := last;
    }
  }

  /** Revision 1 is that of the creation, and every later revision row that of one reopening. */
  lemma {:induction false} EveryRevisionTold(creation: Creation, events: seq<Event>, n: nat) returns (k: int)
    requires n < |Exec(Initial(creation), events).revisions|
    ensures var s := Exec(Initial(creation), events);
            if n == 0 then
              s.revisions[0] ==
              RevisionRow(1, Provisioning, creation.policies, Some(creation.createdBy), creation.createdAt)
            else
              && 0 <= k < |s.history|
              && Revises(s.revisions[n], s.history[k], n + 1, creation.policies)
              && ReopenCount(s.history[..k]) == n - 1
  {
    hide Exec;
    var s := Exec(Initial(creation), events);
    LogReplays(creation, events);
    k := 0;
    if n > 0 {
      k := RevisionBehind(s.history, FirstRevision(creation), n);
    }
  }
}
