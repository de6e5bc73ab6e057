/** Any number of callers. A call looks its key up without a lock, and later takes the row lock,
  * checks the newest row and commits, or aborts. Other writers may come in between.
  */
module LifecycleConcurrency {
  import opened LifecycleTransition
  import opened LifecycleRuns

  datatype Session =
    | Waiting(req: Request, now: int)
    | Done(req: Request, now: int, response: Response)

  datatype System = System(store: Store, sessions: map<nat, Session>)

  datatype Step =
    | Lookup(caller: nat, req: Request, now: int)
    | Finish(caller: nat)
    | Other(event: Event)

  /** A caller's number is used once; a step that does not apply does nothing. */
  function Next(sys: System, step: Step): System {
    match step
    case Lookup(caller, req, now) =>
      if caller in sys.sessions then sys
      else
        (match Prior(sys.store.commands, req)
         case Some(response) => sys.(sessions := sys.sessions[caller := Done(req, now, response)])
         case None => sys.(sessions := sys.sessions[caller := Waiting(req, now)]))
    case Finish(caller) =>
      if caller in sys.sessions && sys.sessions[caller].Waiting? then
        var req, now := sys.sessions[caller].req, sys.sessions[caller].now;
        var (store, response) := LockCheckCommit(sys.store, req, now);
        System(store, sys.sessions[caller := Done(req, now, response)])
      else sys
    case Other(event) => sys.(store := Apply(sys.store, event))
  }

  function Schedule(sys: System, steps: seq<Step>): System {
    if steps == [] then sys
    else Next(Schedule(sys, steps[..|steps| - 1]), steps[|steps| - 1])
  }

  /** The atomic call that a step stands for: a call takes effect at its lookup when that
    * finds the key, and otherwise when it finishes. */
  function AtomicEvent(sys: System, step: Step): seq<Event> {
    match step
    case Lookup(caller, req, now) =>
      if caller !in sys.sessions && Prior(sys.store.commands, req).Some? then [Call(req, now)] else []
    case Finish(caller) =>
      if caller in sys.sessions && sys.sessions[caller].Waiting?
      then [Call(sys.sessions[caller].req, sys.sessions[caller].now)] else []
    case Other(event) => [event]
  }

  function AtomicRun(sys: System, steps: seq<Step>): seq<Event> {
    if steps == [] then []
    else
      var n := |steps| - 1;
      AtomicRun(sys, steps[..n]) + AtomicEvent(Schedule(sys, steps[..n]), steps[n])
  }

  lemma {:induction false} ExecAtMostOne(s: Store, events: seq<Event>, last: seq<Event>)
    requires |last| <= 1
    ensures Exec(s, events + last) == if last == [] then Exec(s, events) else Apply(Exec(s, events), last[0])
  {
    if last == [] {
      assert events + last == events;
    } else {
      assert (events + last)[..|events|] == events;
    }
  }

  /** Every interleaving leaves the store of a run of whole, atomic calls. */
  lemma {:induction false} InterleavingIsAtomic(s: Store, steps: seq<Step>)
    ensures Schedule(System(s, map[]), steps).store == Exec(s, AtomicRun(System(s, map[]), steps))
    decreases |steps|
  {
    hide Next, AtomicEvent, Apply;
    if steps != [] {
      var n := |steps| - 1;
      var sys := System(s, map[]);
      var before := Schedule(sys, steps[..n]);
      InterleavingIsAtomic(s, steps[..n]);
      NextIsAtomic(before, steps[n]);
      ExecAtMostOne(s, AtomicRun(sys, steps[..n]), AtomicEvent(before, steps[n]));
    }
  }

  lemma {:induction false} NextIsAtomic(sys: System, step: Step)
    ensures var event := AtomicEvent(sys, step);
            && |event| <= 1
            && Next(sys, step).store == if event == [] then sys.store else Apply(sys.store, event[0])
  {
  }

  // ----- what the callers were told -----

  /** The answer of a finished session is that of the whole call at its place in the atomic run,
    * except that a racer whose key was taken after its lookup is told of an error instead. */
  predicate Explained(s: Store, events: seq<Event>, i: int, done: Session)
    requires done.Done?
  {
    && 0 <= i < |events|
    && events[i] == Call(done.req, done.now)
    && var there := Exec(s, events[..i]);
    && (|| done.response == Transition(there, done.req, done.now).1
        || (done.response.Err? && done.req.operationKey in there.commands))
  }

  lemma {:induction false} ExplainedStays(s: Store, events: seq<Event>, more: seq<Event>, i: int, done: Session)
    requires done.Done? && Explained(s, events, i, done)
    ensures Explained(s, events + more, i, done)
  {
    assert (events + more)[..i] == events[..i];
  }

  lemma {:induction false} AnswersAreAtomic(s: Store, steps: seq<Step>, caller: nat) returns (i: int)
    requires var sys := Schedule(System(s, map[]), steps);
             caller in sys.sessions && sys.sessions[caller].Done?
    ensures Explained(s, AtomicRun(System(s, map[]), steps), i, Schedule(System(s, map[]), steps).sessions[caller])
    decreases |steps|
  {
    var n := |steps| - 1;
    var sys := System(s, map[]);
    var before, after := Schedule(sys, steps[..n]), Schedule(sys, steps);
    var events, last := AtomicRun(sys, steps[..n]), AtomicEvent(before, steps[n]);
    if caller in before.sessions && before.sessions[caller].Done? {
      i := AnswersAreAtomic(s, steps[..n], caller);
      assert after.sessions[caller] == before.sessions[caller];
      ExplainedStays(s, events, last, i, after.sessions[caller]);
    } else {
      i := |events|;
      InterleavingIsAtomic(s, steps[..n]);
      assert (events + last)[..i] == events;
      AnswerOfStep(before, steps[n], caller);
    }
  }

  /** The step that finishes a session stands for its call, and answers as the call would. */
  lemma {:induction false} AnswerOfStep(sys: System, step: Step, caller: nat)
    requires !(caller in sys.sessions && sys.sessions[caller].Done?)
    requires caller in Next(sys, step).sessions && Next(sys, step).sessions[caller].Done?
    ensures var done := Next(sys, step).sessions[caller];
            && AtomicEvent(sys, step) == [Call(done.req, done.now)]
            && (|| done.response == Transition(sys.store, done.req, done.now).1
                || (done.response.Err? && done.req.operationKey in sys.store.commands))
  {
  }

  // ----- at most once -----

  predicate Applied(session: Session) {
    session.Done? && session.response.Ok? && !session.response.value.duplicate
  }

  /** Each session told that it made a transition owns one row of the log. */
  predicate Owns(store: Store, session: Session, k: int) {
    && 0 <= k < |store.history|
    && session.req.operationKey == store.history[k].operationKey
    && session.req.expectedVersion == k + 1
  }

  predicate Owners(sys: System) {
    && (forall c | c in sys.sessions && Applied(sys.sessions[c]) ::
          Owns(sys.store, sys.sessions[c], sys.sessions[c].req.expectedVersion - 1))
    && (forall c, d | c in sys.sessions && d in sys.sessions && c != d
                      && Applied(sys.sessions[c]) && Applied(sys.sessions[d]) ::
          sys.sessions[c].req.expectedVersion != sys.sessions[d].req.expectedVersion)
  }

  lemma {:induction false} OwnersGrow(sys: System, store: Store)
    requires Owners(sys) && sys.store.history <= store.history
    ensures Owners(sys.(store := store))
  {
  }

  /** A session that made no transition claims no row. */
  lemma {:induction false} OwnersIgnore(sys: System, caller: nat, session: Session)
    requires Owners(sys) && !Applied(session)
    requires caller !in sys.sessions || sys.sessions[caller].Waiting?
    ensures Owners(sys.(sessions := sys.sessions[caller := session]))
  {
  }

  lemma {:induction false} CommitAppends(s: Store, req: Request, now: int)
    requires Sound(s) && Refusal(s, req, now).None?
    ensures req.expectedVersion == |s.history| + 1
    ensures LockCheckCommit(s, req, now).0.history == s.history + [HistoryOf(s.row, req, now)]
  {
  }

  lemma {:induction false} OwnersAppend(sys: System, store: Store, caller: nat, session: Session, row: HistoryRow)
    requires Owners(sys) && store.history == sys.store.history + [row]
    requires session.req.operationKey == row.operationKey && session.req.expectedVersion == |store.history|
    requires caller in sys.sessions && sys.sessions[caller].Waiting?
    ensures Owners(System(store, sys.sessions[caller := session]))
  {
  }

  lemma {:induction false} OwnersKept(sys: System, step: Step)
    requires Sound(sys.store) && Owners(sys)
    ensures Owners(Next(sys, step))
  {
    match step
    case Lookup(caller, req, now) =>
      if caller !in sys.sessions {
        OwnersIgnore(sys, caller, Next(sys, step).sessions[caller]);
      }
    case Finish(caller) =>
      if caller in sys.sessions && sys.sessions[caller].Waiting? {
        var req, now := sys.sessions[caller].req, sys.sessions[caller].now;
        if Refusal(sys.store, req, now).None? {
          CommitAppends(sys.store, req, now);
          OwnersAppend(sys, Next(sys, step).store, caller, Next(sys, step).sessions[caller],
                       HistoryOf(sys.store.row, req, now));
        } else {
          OwnersIgnore(sys, caller, Next(sys, step).sessions[caller]);
        }
      }
    case Other(event) =>
      StepGrows(sys.store, event);
      OwnersGrow(sys, Apply(sys.store, event));
  }

  lemma {:induction false} SoundNext(sys: System, step: Step)
    requires Sound(sys.store)
    ensures Sound(Next(sys, step).store)
  {
    NextIsAtomic(sys, step);
    if AtomicEvent(sys, step) != [] {
      StepSound(sys.store, AtomicEvent(sys, step)[0]);
    }
  }

  lemma {:induction false} OwnersRun(creation: Creation, steps: seq<Step>)
    ensures var sys := Schedule(System(Initial(creation), map[]), steps);
            Sound(sys.store) && Owners(sys)
    decreases |steps|
  {
    if steps != [] {
      OwnersRun(creation, steps[..|steps| - 1]);
      SoundNext(Schedule(System(Initial(creation), map[]), steps[..|steps| - 1]), steps[|steps| - 1]);
      OwnersKept(Schedule(System(Initial(creation), map[]), steps[..|steps| - 1]), steps[|steps| - 1]);
    }
  }

  /** Of all the callers that use one operation key, whatever versions they expect and however
    * they race, at most one is told that it made the transition. */
  lemma {:induction false} AtMostOnce(creation: Creation, steps: seq<Step>, c: nat, d: nat)
    requires var sessions := Schedule(System(Initial(creation), map[]), steps).sessions;
             && c in sessions && d in sessions && c != d
             && Applied(sessions[c]) && Applied(sessions[d])
    ensures var sessions := Schedule(System(Initial(creation), map[]), steps).sessions;
            sessions[c].req.operationKey != sessions[d].req.operationKey
  {
    OwnersRun(creation, steps);
    var sys := Schedule(System(Initial(creation), map[]), steps);
    var i, j := sys.sessions[c].req.expectedVersion - 1, sys.sessions[d].req.expectedVersion - 1;
    assert Answered(sys.store.commands, sys.store.history[i].operationKey, i);
    assert Answered(sys.store.commands, sys.store.history[j].operationKey, j);
  }

  // ----- the callers' own requests -----

  /** Event `j` is the first lookup of this caller. */
  predicate FirstLookup(steps: seq<Step>, caller: nat, j: int) {
    && 0 <= j < |steps| && steps[j].Lookup? && steps[j].caller == caller
    && forall i | 0 <= i < j && steps[i].Lookup? :: steps[i].caller != caller
  }

  function Asks(session: Session): Event {
    Call(session.req, session.now)
  }

  lemma {:induction false} SessionKept(sys: System, step: Step, caller: nat)
    requires !step.Lookup? || step.caller != caller || caller in sys.sessions
    ensures caller in Next(sys, step).sessions <==> caller in sys.sessions
    ensures caller in sys.sessions ==> Asks(Next(sys, step).sessions[caller]) == Asks(sys.sessions[caller])
    ensures step.Finish? && step.caller == caller && caller in sys.sessions ==> Next(sys, step).sessions[caller].Done?
    ensures caller in sys.sessions && sys.sessions[caller].Done? ==>
              Next(sys, step).sessions[caller] == sys.sessions[caller]
  {
  }

  /** A session is that of the caller's first lookup, with its request and time, whatever the
    * other callers do. */
  lemma {:induction false} SessionOfLookup(s: Store, steps: seq<Step>, caller: nat, j: int)
    requires FirstLookup(steps, caller, j)
    ensures var sys := Schedule(System(s, map[]), steps);
            && caller in sys.sessions
            && Asks(sys.sessions[caller]) == Call(steps[j].req, steps[j].now)
    decreases |steps|
  {
    hide Asks;
    var n := |steps| - 1;
    var before := Schedule(System(s, map[]), steps[..n]);
    if j < n {
      SessionOfLookup(s, steps[..n], caller, j);
      SessionKept(before, steps[n], caller);
    } else {
      NoSessionYet(s, steps[..n], caller);
      LookupOpens(before, steps[n]);
    }
  }

  lemma {:induction false} LookupOpens(sys: System, step: Step)
    requires step.Lookup? && step.caller !in sys.sessions
    ensures step.caller in Next(sys, step).sessions
    ensures Asks(Next(sys, step).sessions[step.caller]) == Call(step.req, step.now)
  {
  }

  lemma {:induction false} NoSessionYet(s: Store, steps: seq<Step>, caller: nat)
    requires forall i | 0 <= i < |steps| && steps[i].Lookup? :: steps[i].caller != caller
    ensures caller !in Schedule(System(s, map[]), steps).sessions
    decreases |steps|
  {
    hide Next;
    if steps != [] {
      var n := |steps| - 1;
      NoSessionYet(s, steps[..n], caller);
      SessionKept(Schedule(System(s, map[]), steps[..n]), steps[n], caller);
    }
  }

  /** A caller that has looked up and finishes is answered, and its answer stays. */
  lemma {:induction false} FinishedIsAnswered(s: Store, steps: seq<Step>, caller: nat, j: nat)
    requires j < |steps| && steps[j] == Finish(caller)
    requires caller in Schedule(System(s, map[]), steps[..j]).sessions
    ensures caller in Schedule(System(s, map[]), steps).sessions
    ensures Schedule(System(s, map[]), steps).sessions[caller].Done?
    decreases |steps|
  {
    hide Next;
    var n := |steps| - 1;
    var before := Schedule(System(s, map[]), steps[..n]);
    if j < n {
      assert steps[..n][..j] == steps[..j];
      FinishedIsAnswered(s, steps[..n], caller, j);
    }
    SessionKept(before, steps[n], caller);
  }
}
