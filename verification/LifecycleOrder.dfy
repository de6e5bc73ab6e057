/** Destruction in the documented order: a full closing, a verified reset, then destruction.
  * When does the transition table enforce it?
  */
module LifecycleOrder {
  import opened LifecycleStates
  import opened LifecycleTransition
  import opened LifecycleRuns
  import opened LifecycleShape
  import opened LifecycleWitness
  import opened LifecycleFreshness
  import opened LifecycleRoutes

  // ----- was there a verified reset? -----

  predicate PassedReset(history: seq<HistoryRow>) {
    exists i | 0 <= i < |history| :: history[i].newState.ResetVerified?
  }

  predicate DestroysAfterReset(h: HistoryRow) {
    h.priorState.ResetVerified? && h.newState.Destroying?
  }

  lemma {:induction false} LeavesForDestruction(history: seq<HistoryRow>, i: nat)
    requires Chained(history) && i < |history| && history[i].newState.ResetVerified?
    requires !StateAfter(history).ResetVerified?
    ensures i + 1 < |history| && DestroysAfterReset(history[i + 1])
  {
    ChainedAt(history, i + 1);
    assert history[..i + 1][i] == history[i];
  }

  /** A workspace past RESET_VERIFIED passed it exactly when it once began its destruction there,
    * and not in RECOVERY_REQUIRED. */
  lemma {:induction false} PassedResetIff(history: seq<HistoryRow>)
    requires Chained(history) && !StateAfter(history).ResetVerified?
    ensures PassedReset(history) <==> exists j | 0 <= j < |history| :: DestroysAfterReset(history[j])
  {
    if j :| 0 <= j < |history| && DestroysAfterReset(history[j]) {
      ChainedAt(history, j);
      assert j > 0 && history[j - 1].newState.ResetVerified?;
    }
    if i :| 0 <= i < |history| && history[i].newState.ResetVerified? {
      LeavesForDestruction(history, i);
    }
  }

  // ----- the documented road -----

  const RESET_ROAD: seq<State> :=
    [ResetPlanning, ResetAuthorized, Purging, VerifyingReset, ResetVerified, Destroying, Destroyed]

  function RoadStage(s: State): (n: nat)
    ensures n <= |RESET_ROAD|
    ensures n > 0 ==> RESET_ROAD[n - 1] == s
  {
    match s
    case ResetPlanning => 1
    case ResetAuthorized => 2
    case Purging => 3
    case VerifyingReset => 4
    case ResetVerified => 5
    case Destroying => 6
    case Destroyed => 7
    case _ => 0
  }

  predicate NeverRecovered(history: seq<HistoryRow>) {
    forall i | 0 <= i < |history| :: !history[i].newState.RecoveryRequired?
  }

  /** The last `n` rows are the first `n` states of the road, entered from CLOSED. */
  predicate OnResetRoad(history: seq<HistoryRow>, n: nat) {
    && n <= |RESET_ROAD| && n < |history|
    && StateAfter(history[..|history| - n]).Closed?
    && forall j | 0 <= j < n :: history[|history| - n + j].newState == RESET_ROAD[j]
  }

  lemma {:induction false} RoadEdge(from: State, to: State)
    requires Allowed(from, to) && RoadStage(to) > 0 && !from.RecoveryRequired?
    ensures RoadStage(to) == 1 ==> from.Closed?
    ensures RoadStage(to) > 1 ==> RoadStage(from) == RoadStage(to) - 1
  {
  }

  lemma {:induction false} RoadForced(history: seq<HistoryRow>)
    requires Chained(history) && NeverRecovered(history) && RoadStage(StateAfter(history)) > 0
    ensures OnResetRoad(history, RoadStage(StateAfter(history)))
    decreases |history|
  {
    var last := |history| - 1;
    var shorter := history[..last];
    var n := RoadStage(StateAfter(history));
    assert !StateAfter(shorter).RecoveryRequired?;
    RoadEdge(history[last].priorState, history[last].newState);
    assert NeverRecovered(shorter);
    if n > 1 {
      RoadForced(shorter);
      assert shorter[..last - (n - 1)] == history[..|history| - n];
      forall j | 0 <= j < n
        ensures history[|history| - n + j].newState == RESET_ROAD[j]
      {
        if j < n - 1 {
          assert shorter[|shorter| - (n - 1) + j] == history[|history| - n + j];
        }
      }
    }
  }

  lemma {:induction false} PrefixChained(history: seq<HistoryRow>, i: nat)
    requires Chained(history) && i <= |history|
    ensures Chained(history[..i])
  {
    if i < |history| {
      ChainedAt(history, i);
    } else {
      assert history[..i] == history;
    }
  }

  lemma {:induction false} RoadMeansNoRecovery(history: seq<HistoryRow>)
    requires Chained(history) && OnResetRoad(history, |RESET_ROAD|)
    ensures NeverRecovered(history)
  {
    hide Chained;
    var n := |history| - |RESET_ROAD|;
    PrefixChained(history, n);
    DoomedOnceCrossed(history[..n]);
    forall i | 0 <= i < |history|
      ensures !history[i].newState.RecoveryRequired?
    {
      if i < n {
        assert !CrossesLine(history[..n][i]);
      } else {
        assert history[n + (i - n)].newState == RESET_ROAD[i - n];
      }
    }
  }

  /** A destroyed workspace ends with the seven states of the road exactly when it never needed
    * a recovery: the condition can be read off the log before DESTROYED is asked for. */
  lemma {:induction false} RoadIff(history: seq<HistoryRow>)
    requires Chained(history) && StateAfter(history).Destroyed?
    ensures OnResetRoad(history, |RESET_ROAD|) <==> NeverRecovered(history)
  {
    if NeverRecovered(history) {
      RoadForced(history);
    } else if OnResetRoad(history, |RESET_ROAD|) {
      RoadMeansNoRecovery(history);
    }
  }

  /** The workspace was closed by the whole chain, and then took the road to its end. */
  predicate DestroyedInOrder(history: seq<HistoryRow>, a: nat) {
    && OnResetRoad(history, |RESET_ROAD|)
    && a + |CHAIN| + |RESET_ROAD| < |history|
    && history[a].newState.Active?
    && forall j | 0 <= j < |CHAIN| :: history[a + 1 + j].newState == CHAIN[j]
  }

  lemma {:induction false} RoadBeginsWithChain(history: seq<HistoryRow>) returns (a: nat)
    requires Chained(history) && OnResetRoad(history, |RESET_ROAD|)
    ensures DestroyedInOrder(history, a)
  {
    var closed := history[..|history| - |RESET_ROAD|];
    PrefixChained(history, |closed|);
    a := FindLastActive(closed);
    ChainForced(closed, a);
  }

  /** The documented order, for every reachable workspace: a destroyed workspace was closed
    * through the whole chain, reset, verified and then destroyed, in this order, exactly when it
    * never entered RECOVERY_REQUIRED. Each of its rows was entered through its open gate. */
  lemma {:induction false} DestroyedInOrderIff(creation: Creation, events: seq<Event>)
    requires Exec(Initial(creation), events).row.state.Destroyed?
    ensures var history := Exec(Initial(creation), events).history;
            && ((exists a :: DestroyedInOrder(history, a)) <==> NeverRecovered(history))
            && (PassedReset(history) <==> exists j | 0 <= j < |history| :: DestroysAfterReset(history[j]))
    ensures forall k | 0 <= k < |Exec(Initial(creation), events).history| ::
              EnteredThroughGate(Initial(creation), events, k)
  {
    hide Exec, EnteredThroughGate, OnResetRoad, NeverRecovered;
    var history := Exec(Initial(creation), events).history;
    ChainedRun(creation, events);
    RoadIff(history);
    PassedResetIff(history);
    if NeverRecovered(history) {
      var a := RoadBeginsWithChain(history);
    }
    forall k | 0 <= k < |history|
      ensures EnteredThroughGate(Initial(creation), events, k)
    {
      EnteredByGate(creation, events, k);
    }
  }

  /** The order is not enforced: a workspace that was never frozen is destroyed in five steps. */
  lemma {:induction false} DestroyedOutOfOrder(creation: Creation, now: int) returns (events: seq<Event>)
    ensures var s := Exec(Initial(creation), events);
            && s.row.state.Destroyed? && !PassedReset(s.history)
            && StatesSince(s.history, 0) == [Active, Freezing, RecoveryRequired, Destroying, Destroyed]
  {
    hide Exec;
    assert Exec(Initial(creation), []) == Initial(creation) by { EmptyRun(Initial(creation)); }
    events := DestructionStaysPossible(creation, [], now);
    assert [] + events == events;
  }

  lemma {:induction false} EmptyRun(s: Store)
    ensures Exec(s, []) == s
  {
  }
}
