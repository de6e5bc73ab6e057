/** Idempotency over whole runs: retries can be deleted, and each is answered as the first call was. */
module LifecycleRetries {
  import opened Wrappers
  import opened LifecycleTransition
  import opened LifecycleRuns

  /** However far the workspace has moved since a call committed, a call with the same key
    * changes nothing; it gets the original answer when digest and target agree, whatever
    * version it expects, and an idempotency conflict otherwise. */
  lemma {:induction false} RetryAnswered(s: Store, req: Request, now: int, later: seq<Event>, retry: Request, when: int)
    requires Commits(s, Call(req, now))
    requires retry.operationKey == req.operationKey
    ensures var first := Transition(s, req, now);
            var s' := Exec(first.0, later);
            && first.1 == Ok(Outcome(Some(req.target), Some(req.expectedVersion + 1), false))
            && Transition(s', retry, when) ==
                 (s', if retry.digest == req.digest && retry.target == req.target
                      then Ok(Outcome(Some(req.target), Some(req.expectedVersion + 1), true))
                      else Err(IdempotencyConflict))
  {
    RunGrows(Transition(s, req, now).0, later);
  }

  /** A call whose key is already recorded. */
  predicate IsRetry(s: Store, e: Event) {
    e.Call? && e.req.operationKey in s.commands
  }

  /** The run with every retry deleted. */
  function Erase(s: Store, events: seq<Event>): seq<Event> {
    if events == [] then []
    else
      var n := |events| - 1;
      Erase(s, events[..n]) + if IsRetry(Exec(s, events[..n]), events[n]) then [] else [events[n]]
  }

  predicate RetryFree(s: Store, events: seq<Event>) {
    forall i | 0 <= i < |events| :: !IsRetry(Exec(s, events[..i]), events[i])
  }

  lemma {:induction false} RetryIsNoStep(s: Store, e: Event)
    requires IsRetry(s, e)
    ensures Apply(s, e) == s
  {
  }

  /** Deleting the retries leaves the store as it was. */
  lemma {:induction false} RetryElimination(s: Store, events: seq<Event>)
    ensures Exec(s, Erase(s, events)) == Exec(s, events)
    decreases |events|
  {
    hide Apply, IsRetry;
    if events != [] {
      var n := |events| - 1;
      var before, kept := Exec(s, events[..n]), Erase(s, events[..n]);
      RetryElimination(s, events[..n]);
      if IsRetry(before, events[n]) {
        RetryIsNoStep(before, events[n]);
        assert Erase(s, events) == kept;
      } else {
        assert (kept + [events[n]])[..|kept|] == kept;
      }
    }
  }

  /** The events of a run that are not retries, each with the answer it got. */
  function AnsweredEvents(s: Store, events: seq<Event>): seq<(Event, Option<Response>)> {
    if events == [] then []
    else
      var n := |events| - 1;
      var before := Exec(s, events[..n]);
      AnsweredEvents(s, events[..n]) +
      if IsRetry(before, events[n]) then [] else [(events[n], AnswerTo(before, events[n]))]
  }

  function AnswerTo(s: Store, e: Event): Option<Response> {
    if e.Call? then Some(Transition(s, e.req, e.now).1) else None
  }

  /** Every event that survives the deletion is the same event, in the same place among the
    * others, and gets the same answer as in the original run. */
  lemma {:induction false} ErasureKeepsAnswers(s: Store, events: seq<Event>)
    ensures AnsweredEvents(s, Erase(s, events)) == AnsweredEvents(s, events)
    ensures |AnsweredEvents(s, events)| == |Erase(s, events)|
    ensures forall i | 0 <= i < |Erase(s, events)| :: AnsweredEvents(s, events)[i].0 == Erase(s, events)[i]
    decreases |events|
  {
    hide Apply, IsRetry, AnswerTo;
    if events != [] {
      var n := |events| - 1;
      var kept := Erase(s, events[..n]);
      ErasureKeepsAnswers(s, events[..n]);
      RetryElimination(s, events[..n]);
      if IsRetry(Exec(s, events[..n]), events[n]) {
        assert Erase(s, events) == kept;
      } else {
        assert (kept + [events[n]])[..|kept|] == kept;
      }
    }
  }

  /** And no retry is left. */
  lemma {:induction false} ErasureIsRetryFree(s: Store, events: seq<Event>)
    ensures RetryFree(s, Erase(s, events))
    decreases |events|
  {
    hide Apply, IsRetry;
    if events != [] {
      var n := |events| - 1;
      var kept := Erase(s, events[..n]);
      ErasureIsRetryFree(s, events[..n]);
      if IsRetry(Exec(s, events[..n]), events[n]) {
        assert Erase(s, events) == kept;
      } else {
        RetryElimination(s, events[..n]);
        RetryFreeSnoc(s, kept + [events[n]]);
        assert (kept + [events[n]])[..|kept|] == kept;
      }
    }
  }

  /** Only retries are deleted: a run is its own erasure exactly when it has none. */
  lemma {:induction false} ErasesOnlyRetries(s: Store, events: seq<Event>)
    ensures RetryFree(s, events) <==> Erase(s, events) == events
  {
    ErasureIsRetryFree(s, events);
    if RetryFree(s, events) {
      ErasesNothing(s, events);
    }
  }

  lemma {:induction false} ErasesNothing(s: Store, events: seq<Event>)
    requires RetryFree(s, events)
    ensures Erase(s, events) == events
    decreases |events|
  {
    hide Apply, IsRetry;
    if events != [] {
      RetryFreeSnoc(s, events);
      ErasesNothing(s, events[..|events| - 1]);
    }
  }

  lemma {:induction false} RetryFreeSnoc(s: Store, events: seq<Event>)
    requires events != []
    ensures var n := |events| - 1;
            RetryFree(s, events) <==> RetryFree(s, events[..n]) && !IsRetry(Exec(s, events[..n]), events[n])
  {
    hide Exec, IsRetry;
    var n := |events| - 1;
    assert forall i | 0 <= i < n :: events[..n][..i] == events[..i] && events[..n][i] == events[i];
  }
}
