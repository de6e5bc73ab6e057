/** The log is the truth: what a reader of the history table can conclude. */
module LifecycleLog {
  import opened Wrappers
  import opened LifecycleTransition
  import opened LifecycleRuns

  /** Every committed transition adds one to the row's revision: without hold updates it equals
    * the lifecycle version. */
  lemma {:induction false} RevisionFollowsVersion(creation: Creation, events: seq<Event>)
    requires forall e | e in events :: !e.SetHold?
    ensures var row := Exec(Initial(creation), events).row;
            row.revision == row.lifecycleVersion && !row.legalHoldActive
    decreases |events|
  {
    if events != [] {
      var n := |events| - 1;
      RevisionFollowsVersion(creation, events[..n]);
      assert !events[n].SetHold?;
    }
  }

  /** An operation key is applied at most once, and every recorded command is complete. */
  lemma {:induction false} OncePerKey(creation: Creation, events: seq<Event>)
    ensures var s := Exec(Initial(creation), events);
            && (forall i, j | 0 <= i < j < |s.history| :: s.history[i].operationKey != s.history[j].operationKey)
            && (forall key | key in s.commands :: Completes(s.commands[key], key, s.history))
            && |s.commands| == |s.history|
  {
    Reachable(creation, events);
    var s := Exec(Initial(creation), events);
    forall i, j | 0 <= i < j < |s.history|
      ensures s.history[i].operationKey != s.history[j].operationKey
    {
      assert Answered(s.commands, s.history[i].operationKey, i) && Answered(s.commands, s.history[j].operationKey, j);
    }
    CommandsCounted(s.commands, s.history);
  }

  lemma {:induction false} CommandsCounted(commands: map<string, Command>, history: seq<HistoryRow>)
    requires forall i, j | 0 <= i < j < |history| :: history[i].operationKey != history[j].operationKey
    requires forall i | 0 <= i < |history| :: history[i].operationKey in commands
    requires forall key | key in commands :: exists i | 0 <= i < |history| :: history[i].operationKey == key
    ensures |commands| == |history|
  {
    if history == [] {
      assert forall key :: key !in commands;
      assert commands == map[];
    } else {
      var n := |history| - 1;
      var last := history[n].operationKey;
      var fewer := commands - {last};
      forall key | key in fewer
        ensures exists i | 0 <= i < n :: history[..n][i].operationKey == key
      {
        var i :| 0 <= i < |history| && history[i].operationKey == key;
        assert history[..n][i].operationKey == key;
      }
      CommandsCounted(fewer, history[..n]);
      assert commands.Keys == fewer.Keys + {last};
      assert |commands.Keys| == |fewer.Keys| + 1;
    }
  }

  predicate Undrained(s: Store) {
    && |s.outbox| == |s.history|
    && forall k | 0 <= k < |s.outbox| :: s.outbox[k].aggregateVersion == k + 2
  }

  lemma {:induction false} StepUndrained(s: Store, e: Event)
    requires LogAgrees(s) && Undrained(s) && !e.ExecutorDrain?
    ensures Undrained(Apply(s, e))
  {
  }

  lemma {:induction false} RunUndrained(creation: Creation, events: seq<Event>)
    requires forall e | e in events :: !e.ExecutorDrain?
    ensures Undrained(Exec(Initial(creation), events))
    decreases |events|
  {
    if events != [] {
      var n := |events| - 1;
      RunUndrained(creation, events[..n]);
      Reachable(creation, events[..n]);
      assert !events[n].ExecutorDrain?;
      StepUndrained(Exec(Initial(creation), events[..n]), events[n]);
    }
  }

  /** Until the executor drains the outbox, it holds exactly one event per log row. */
  lemma {:induction false} OutboxComplete(creation: Creation, events: seq<Event>)
    requires forall e | e in events :: !e.ExecutorDrain?
    ensures var s := Exec(Initial(creation), events);
            && |s.outbox| == |s.history|
            && forall i | 0 <= i < |s.history| ::
                 && s.history[i].operationKey in s.commands
                 && s.outbox[i] == EventOf(s.history[i], s.commands[s.history[i].operationKey].digest)
  {
    hide Exec, LogAgrees, CommandsMirrorLog;
    Reachable(creation, events);
    RunUndrained(creation, events);
    var s := Exec(Initial(creation), events);
    forall i | 0 <= i < |s.history|
      ensures s.history[i].operationKey in s.commands
      ensures s.outbox[i] == EventOf(s.history[i], s.commands[s.history[i].operationKey].digest)
    {
      assert Reports(s.outbox[i], s.history, s.commands);
    }
  }

  /** After any drain, what is left still reports rows of the log, each at most once. */
  lemma {:induction false} OutboxFaithful(creation: Creation, events: seq<Event>)
    ensures var s := Exec(Initial(creation), events);
            OutboxOrdered(s.outbox, s.history, s.commands)
  {
    Reachable(creation, events);
  }

  /** A drain takes the event at its place and leaves the others in order; there is none to take
    * exactly when the place is past the end. */
  lemma {:induction false} DrainTakesOne(s: Store, i: nat)
    ensures var before, after := s.outbox, Apply(s, ExecutorDrain(i)).outbox;
            && (i < |before| ==> |after| == |before| - 1)
            && (i >= |before| ==> after == before)
            && forall k | 0 <= k < |after| :: after[k] == if k < i then before[k] else before[k + 1]
    ensures Apply(s, ExecutorDrain(i)).(outbox := s.outbox) == s
  {
  }

  /** In a reachable store the keys of the history and revision tables never collide. */
  lemma {:induction false} LogKeysAlwaysFree(creation: Creation, events: seq<Event>, req: Request, now: int)
    ensures var r := Refusal(Exec(Initial(creation), events), req, now);
            r != Some(DuplicateVersion) && r != Some(DuplicateRevision)
  {
    hide Exec, GuardAdmits, Moved;
    Reachable(creation, events);
    NextNumbersFree(Exec(Initial(creation), events));
    hide LogAgrees;
  }
}
