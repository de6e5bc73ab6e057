/** What the transition table alone implies about every log. */
module LifecycleShape {
  import opened Wrappers
  import opened LifecycleStates
  import opened LifecycleEvidence
  import opened LifecycleTransition
  import opened LifecycleRuns

  // ----- the point of no return -----

  predicate Doomed(s: State) {
    || s.Purging? || s.VerifyingReset? || s.ResetVerified? || s.Destroying?
    || s.Destroyed? || s.RecoveryRequired? || s.Quarantined?
  }

  /** A log row that enters PURGING or RECOVERY_REQUIRED. */
  predicate CrossesLine(h: HistoryRow) {
    h.newState.Purging? || h.newState.RecoveryRequired?
  }

  lemma {:induction false} DoomedOnceCrossed(history: seq<HistoryRow>)
    requires Chained(history)
    ensures Doomed(StateAfter(history)) <==> exists i | 0 <= i < |history| :: CrossesLine(history[i])
    ensures Replay(history).purgeStartedAt.Some? ==> Doomed(StateAfter(history))
    decreases |history|
  {
    if history != [] {
      var n := |history| - 1;
      var shorter := history[..n];
      DoomedOnceCrossed(shorter);
      if i :| 0 <= i < n && CrossesLine(history[i]) {
        assert CrossesLine(shorter[i]);
      }
      if i :| 0 <= i < n && CrossesLine(shorter[i]) {
        assert CrossesLine(history[i]);
      }
    }
  }

  /** Once the purge timestamp is set or recovery is required, no continuation leaves the
    * doomed states: a workspace that needs recovery, from whatever stage, never reopens. */
  lemma {:induction false} PointOfNoReturn(creation: Creation, events: seq<Event>, later: seq<Event>)
    requires var s := Exec(Initial(creation), events);
             s.row.purgeStartedAt.Some? || s.row.state.RecoveryRequired?
    ensures Doomed(Exec(Initial(creation), events + later).row.state)
    ensures Exec(Initial(creation), events + later).row.writeFenced
  {
    var s, s' := Exec(Initial(creation), events), Exec(Initial(creation), events + later);
    LogReplays(creation, events);
    LogReplays(creation, events + later);
    DoomedOnceCrossed(s.history);
    DoomedOnceCrossed(s'.history);
    assert (events + later)[..|events|] == events;
    PrefixGrows(Initial(creation), events + later, |events|);
    var i :| 0 <= i < |s.history| && CrossesLine(s.history[i]);
    assert CrossesLine(s'.history[i]);
  }

  lemma {:induction false} PurgedIsDoomed(creation: Creation, events: seq<Event>)
    ensures var row := Exec(Initial(creation), events).row;
            row.purgeStartedAt.Some? ==> Doomed(row.state)
  {
    LogReplays(creation, events);
    DoomedOnceCrossed(Exec(Initial(creation), events).history);
  }

  /** The guard that forbids reopening after a purge never decides a reachable call. */
  lemma {:induction false} ReopenGuardNeverFires(creation: Creation, events: seq<Event>, req: Request, now: int)
    ensures Refusal(Exec(Initial(creation), events), req, now) != Some(ReopenAfterPurge)
  {
    PurgedIsDoomed(creation, events);
    hide Exec, Gate, Checkpointed, GuardAdmits, Moved;
  }

  // ----- how long a run can be -----

  /** Rises on every transition that does not recover, reopen or drop a reset plan. */
  function Rank(s: State): (r: nat)
    ensures r <= 17
  {
    match s
    case Provisioning => 0
    case Active => 1
    case Freezing => 2
    case Frozen => 3
    case Finalizing => 4
    case Finalized => 5
    case Exporting => 6
    case Exported => 7
    case Archiving => 8
    case Archived => 9
    case Closed => 10
    case Reopening => 11
    case ResetPlanning => 11
    case ResetAuthorized => 12
    case RecoveryRequired => 12
    case Purging => 13
    case VerifyingReset => 14
    case ResetVerified => 15
    case Destroying => 16
    case Destroyed => 17
    case Quarantined => 17
  }

  /** Recoveries, reopenings and dropped reset plans: the steps that may lower the rank. */
  datatype Backward = Backward(recoveries: nat, reopenings: nat, droppedPlans: nat) {
    function Total(): nat { recoveries + reopenings + droppedPlans }
  }

  function BackwardSteps(history: seq<HistoryRow>): Backward {
    if history == [] then Backward(0, 0, 0)
    else
      var b := BackwardSteps(history[..|history| - 1]);
      var h := history[|history| - 1];
      if h.newState.RecoveryRequired? then b.(recoveries := b.recoveries + 1)
      else if IsReopen(h) then b.(reopenings := b.reopenings + 1)
      else if h.priorState.ResetPlanning? && h.newState.Closed? then b.(droppedPlans := b.droppedPlans + 1)
      else b
  }

  /** Each backward step buys only the rank it gives up: 6 transitions for a recovery,
    * 11 for a reopening, 2 for a dropped plan. */
  lemma {:induction false} LengthBoundedByRank(history: seq<HistoryRow>)
    requires Chained(history)
    ensures var b := BackwardSteps(history);
            |history| <= Rank(StateAfter(history)) + 6 * b.recoveries + 11 * b.reopenings + 2 * b.droppedPlans
    decreases |history|
  {
    if history != [] {
      var n := |history| - 1;
      LengthBoundedByRank(history[..n]);
    }
  }

  /** Every run makes at most 18b+17 transitions, where b counts its backward steps. */
  lemma {:induction false} RunLength(creation: Creation, events: seq<Event>)
    ensures var history := Exec(Initial(creation), events).history;
            |history| <= 18 * BackwardSteps(history).Total() + 17
  {
    var history := Exec(Initial(creation), events).history;
    assert Chained(history) by { LogReplays(creation, events); }
    LengthBoundedByRank(history);
  }

  // ----- the road to a reset -----

  /** The states a workspace must pass between ACTIVE and CLOSED. */
  const CHAIN: seq<State> :=
    [Freezing, Frozen, Finalizing, Finalized, Exporting, Exported, Archiving, Archived, Closed]

  predicate OnChain(s: State) {
    1 <= Rank(s) <= 12 && !s.Reopening? && !s.RecoveryRequired?
  }

  function Stage(s: State): (n: nat)
    ensures n <= |CHAIN|
  {
    match s
    case Active => 0
    case Freezing => 1
    case Frozen => 2
    case Finalizing => 3
    case Finalized => 4
    case Exporting => 5
    case Exported => 6
    case Archiving => 7
    case Archived => 8
    case _ => 9
  }

  /** Rows from `a` on have run through the first `n` states of the chain. */
  predicate PassedChain(history: seq<HistoryRow>, a: nat, n: nat) {
    n <= |CHAIN| && a + n < |history| && forall j | 0 <= j < n :: history[a + 1 + j].newState == CHAIN[j]
  }

  predicate LastActive(history: seq<HistoryRow>, a: int) {
    && 0 <= a < |history| && history[a].newState.Active?
    && forall i | a < i < |history| :: !history[i].newState.Active?
  }

  /** A chain state other than ACTIVE is entered only from the chain state before it. */
  lemma {:induction false} ChainEdge(from: State, to: State)
    requires Allowed(from, to) && OnChain(to) && !to.Active?
    ensures OnChain(from)
    ensures if Stage(from) < |CHAIN| then Stage(to) == Stage(from) + 1 && CHAIN[Stage(from)] == to
            else Stage(to) == |CHAIN|
  {
  }

  lemma {:induction false} ChainForced(history: seq<HistoryRow>, a: nat)
    requires Chained(history) && LastActive(history, a) && OnChain(StateAfter(history))
    ensures PassedChain(history, a, Stage(StateAfter(history)))
    ensures Stage(StateAfter(history)) < |CHAIN| ==> |history| == a + 1 + Stage(StateAfter(history))
    decreases |history|
  {
    var n := |history| - 1;
    if a < n {
      var shorter := history[..n];
      ChainEdge(history[n].priorState, history[n].newState);
      ChainForced(shorter, a);
      assert forall i | 0 <= i < n :: shorter[i] == history[i];
    }
  }

  // ----- one export per revision epoch -----

  /** The states from which EXPORTED cannot be entered without reopening first. */
  predicate PastExport(s: State) {
    Rank(s) >= 7
  }

  lemma {:induction false} OneExportPerEpoch(history: seq<HistoryRow>, i: nat)
    requires Chained(history) && i < |history| && history[i].newState.Exported?
    ensures ReopenCount(history[..i]) <= ReopenCount(history)
    ensures ReopenCount(history) == ReopenCount(history[..i]) ==> PastExport(StateAfter(history))
    decreases |history|
  {
    var n := |history| - 1;
    if i < n {
      var shorter := history[..n];
      assert shorter[..i] == history[..i];
      OneExportPerEpoch(shorter, i);
    }
  }

  /** Two entries to EXPORTED lie in different revision epochs. */
  lemma {:induction false} ExportsInDistinctEpochs(history: seq<HistoryRow>, i: nat, j: nat)
    requires Chained(history) && i < j < |history|
    requires history[i].newState.Exported? && history[j].newState.Exported?
    ensures ReopenCount(history[..i]) < ReopenCount(history[..j])
  {
    ChainedAt(history, j);
    assert history[..j][..i] == history[..i];
    OneExportPerEpoch(history[..j], i);
  }
}
