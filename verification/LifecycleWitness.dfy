/** Every row of the log was admitted by evidence that is still there. */
module LifecycleWitness {
  import opened LifecycleStates
  import opened LifecycleEvidence
  import opened LifecycleTransition
  import opened LifecycleRuns

  // ----- the moment a row was written -----

  /** Event `i` of the run writes row `k` of the log. */
  predicate WritesRow(s: Store, events: seq<Event>, i: int, k: int) {
    && 0 <= i < |events|
    && var before := Exec(s, events[..i]);
    && |before.history| == k
    && Commits(before, events[i])
    && Exec(s, events[..i + 1]) == Committed(before, events[i].req, events[i].now)
  }

  lemma {:induction false} CommitPoint(s: Store, events: seq<Event>, k: nat) returns (i: int)
    requires |s.history| <= k < |Exec(s, events).history|
    ensures WritesRow(s, events, i, k)
    ensures Exec(s, events).history[k] ==
              HistoryOf(Exec(s, events[..i]).row, events[i].req, events[i].now)
    decreases |events|
  {
    hide Apply, Commits, Committed;
    var n := |events| - 1;
    var before := Exec(s, events[..n]);
    if k < |before.history| {
      i := CommitPoint(s, events[..n], k);
      assert events[..n][..i] == events[..i] && events[..n][..i + 1] == events[..i + 1];
      StepGrows(before, events[n]);
    } else {
      i := n;
      assert events[..n + 1] == events;
      LengthensByCommit(before, events[n]);
      CommitAddsRow(before, events[n].req, events[n].now);
    }
  }

  lemma {:induction false} CommitAddsRow(s: Store, req: Request, now: int)
    ensures Committed(s, req, now).history == s.history + [HistoryOf(s.row, req, now)]
  {
  }

  /** Only a committed call lengthens the log, and only by its own row. */
  lemma {:induction false} LengthensByCommit(s: Store, e: Event)
    requires Apply(s, e).history != s.history
    ensures Commits(s, e) && Apply(s, e) == Committed(s, e.req, e.now)
  {
  }

  // ----- what the evidence tables still show about a row -----

  /** The part of the gate of a log row that append-only tables preserve. An authorization may
    * have been invalidated, and a plan may have got a bad receipt, since the row was written. */
  predicate Persisted(e: Evidence, h: HistoryRow, workspaceRevision: int) {
    && (NeedsCheckpoint(h.priorState, h.newState) ==> Checkpointed(e, FailedOperation(h.newState)))
    && match h.newState
       case Frozen => FreezeProved(e, h.version - 1)
       case Finalized => ReportProved(e, h.version - 1)
       case Exported => ExportProved(e, workspaceRevision)
       case Archived => ArchiveProved(e)
       case ResetAuthorized => exists a | a in e.authorizations :: Outlives(e, a, h.recordedAt)
       case Purging => exists a | a in e.authorizations ::
                         Outlives(e, a, h.recordedAt) && AuthorizesReset(e, a, h.version - 1)
       case ResetVerified => exists k | k in e.attestations :: Attests(e, k, Reset)
       case Destroying => exists a | a in e.authorizations ::
                            Outlives(e, a, h.recordedAt) && AuthorizesDestroy(e, a)
       case Destroyed => exists k | k in e.attestations :: Attests(e, k, Destroy)
       case _ => true
  }

  predicate Outlives(e: Evidence, a: Id, time: int) {
    a in e.authorizations && e.authorizations[a].expiresAt > time
  }

  predicate Witnessed(e: Evidence, history: seq<HistoryRow>) {
    forall k | 0 <= k < |history| :: Persisted(e, history[k], RevisionAt(history, k))
  }

  /** The workspace revision in force when row `k` was written. */
  function RevisionAt(history: seq<HistoryRow>, k: nat): int
    requires k <= |history|
  {
    1 + ReopenCount(history[..k])
  }

  lemma {:induction false} PersistedStays(e: Evidence, e': Evidence, h: HistoryRow, revision: int)
    requires EvidenceGrows(e, e') && Persisted(e, h, revision)
    ensures Persisted(e', h, revision)
  {
  }

  /** An open gate is persisted evidence for the row about to be written. */
  lemma {:induction false} GatePersists(s: Store, req: Request, now: int)
    requires Refusal(s, req, now).None?
    ensures Persisted(s.evidence, HistoryOf(s.row, req, now), s.row.workspaceRevision)
  {
  }

  lemma {:induction false} WitnessedRun(creation: Creation, events: seq<Event>)
    ensures var s := Exec(Initial(creation), events);
            Witnessed(s.evidence, s.history)
    decreases |events|
  {
    if events != [] {
      var n := |events| - 1;
      var before, after := Exec(Initial(creation), events[..n]), Exec(Initial(creation), events);
      WitnessedRun(creation, events[..n]);
      ChainedRun(creation, events[..n]);
      StepGrows(before, events[n]);
      forall k | 0 <= k < |after.history|
        ensures Persisted(after.evidence, after.history[k], RevisionAt(after.history, k))
      {
        if k < |before.history| {
          assert after.history[..k] == before.history[..k];
          PersistedStays(before.evidence, after.evidence, before.history[k], RevisionAt(before.history, k));
        } else {
          LengthensByCommit(before, events[n]);
          assert after.history[..k] == before.history && before.history[..k] == before.history;
          GatePersists(before, events[n].req, events[n].now);
        }
      }
    }
  }

  // ----- what was true at the moment itself -----

  /** Event `i` writes row `k`, and in the store it finds the gate of the row is open: evidence,
    * recovery checkpoint and hold are as the target state asks. */
  predicate EntersThroughGate(s: Store, events: seq<Event>, i: int, k: int) {
    && WritesRow(s, events, i, k)
    && k < |Exec(s, events).history|
    && var before, h := Exec(s, events[..i]), Exec(s, events).history[k];
    && h == HistoryOf(before.row, events[i].req, events[i].now)
    && h.version == k + 2
    && before.row.workspaceRevision == RevisionAt(Exec(s, events).history, k)
    && Gate(before.evidence, h.newState, k + 1, RevisionAt(Exec(s, events).history, k), h.recordedAt)
    && (NeedsCheckpoint(h.priorState, h.newState) ==> Checkpointed(before.evidence, FailedOperation(h.newState)))
    && !(before.row.legalHoldActive && Destructive(h.newState))
  }

  ghost predicate EnteredThroughGate(s: Store, events: seq<Event>, k: int) {
    exists i :: EntersThroughGate(s, events, i, k)
  }

  lemma {:induction false} CommitFindsGateOpen(s: Store, req: Request, now: int)
    requires LogAgrees(s) && Refusal(s, req, now).None?
    ensures var h := HistoryOf(s.row, req, now);
            && h.version == |s.history| + 2
            && Gate(s.evidence, h.newState, |s.history| + 1, s.row.workspaceRevision, h.recordedAt)
            && (NeedsCheckpoint(h.priorState, h.newState) ==> Checkpointed(s.evidence, FailedOperation(h.newState)))
            && !(s.row.legalHoldActive && Destructive(h.newState))
  {
  }

  /** Every row of every log was written through an open gate, and what the gate asked for is
    * still stored. */
  lemma {:induction false} EveryRowPassedItsGate(creation: Creation, events: seq<Event>, k: nat) returns (i: int)
    requires k < |Exec(Initial(creation), events).history|
    ensures EntersThroughGate(Initial(creation), events, i, k)
    ensures EvidenceGrows(Exec(Initial(creation), events[..i]).evidence, Exec(Initial(creation), events).evidence)
    ensures var s := Exec(Initial(creation), events);
            Persisted(s.evidence, s.history[k], RevisionAt(s.history, k))
  {
    i := CommitPoint(Initial(creation), events, k);
    var before, s := Exec(Initial(creation), events[..i]), Exec(Initial(creation), events);
    PrefixGrows(Initial(creation), events, i);
    assert s.history[..k] == before.history;
    assert before.row.workspaceRevision == 1 + ReopenCount(before.history) by { ChainedRun(creation, events[..i]); }
    assert LogAgrees(before) by { Reachable(creation, events[..i]); }
    CommitFindsGateOpen(before, events[i].req, events[i].now);
    WitnessedRun(creation, events);
  }
}
