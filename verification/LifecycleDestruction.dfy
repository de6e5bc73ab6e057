/** What stands behind a destroyed workspace and behind a verified purge. */
module LifecycleDestruction {
  import opened LifecycleStates
  import opened LifecycleEvidence
  import opened LifecycleTransition
  import opened LifecycleRuns
  import opened LifecycleWitness

  /** What a step into PURGING or DESTROYING rests on: no hold, and an authorization that is
    * live, names four different people and belongs to a stored plan of the right kind. */
  predicate AuthorizedBy(s: Store, target: State, now: int, a: Id) {
    && !s.row.legalHoldActive
    && Live(s.evidence, a, now)
    && var auth := s.evidence.authorizations[a];
    && Distinct(auth.who)
    && auth.plan in s.evidence.plans
    && var plan := s.evidence.plans[auth.plan];
    && (target.Purging? ==> plan.kind.Reset? && plan.planDigest == auth.planDigest
                            && plan.lifecycleVersion <= s.row.lifecycleVersion)
    && (target.Destroying? ==> plan.kind.Destroy?)
  }

  lemma {:induction false} GateAuthorizes(s: Store, req: Request, now: int) returns (a: Id)
    requires Refusal(s, req, now).None? && (req.target.Purging? || req.target.Destroying?)
    requires Constraints(s.evidence)
    ensures AuthorizedBy(s, req.target, now, a)
  {
    if req.target.Purging? {
      a :| a in s.evidence.authorizations
           && Live(s.evidence, a, now) && AuthorizesReset(s.evidence, a, req.expectedVersion);
    } else {
      a :| a in s.evidence.authorizations && Live(s.evidence, a, now) && AuthorizesDestroy(s.evidence, a);
    }
  }

  /** Every step into PURGING or DESTROYING was authorized when it was taken, and the
    * authorization and its plan are still stored as they were. */
  lemma {:induction false} DestructionIsAuthorized(creation: Creation, events: seq<Event>, k: nat)
    returns (i: int, a: Id)
    requires var history := Exec(Initial(creation), events).history;
             k < |history| && (history[k].newState.Purging? || history[k].newState.Destroying?)
    ensures WritesRow(Initial(creation), events, i, k)
    ensures AuthorizedBy(Exec(Initial(creation), events[..i]), events[i].req.target, events[i].now, a)
    ensures events[i].req.target == Exec(Initial(creation), events).history[k].newState
    ensures var atEntry := Exec(Initial(creation), events[..i]).evidence;
            var e := Exec(Initial(creation), events).evidence;
            && a in e.authorizations && e.authorizations[a] == atEntry.authorizations[a]
            && var plan := e.authorizations[a].plan;
            && plan in e.plans && e.plans[plan] == atEntry.plans[plan]
  {
    i := CommitPoint(Initial(creation), events, k);
    var before := Exec(Initial(creation), events[..i]);
    assert Constraints(before.evidence) by { Reachable(creation, events[..i]); }
    a := GateAuthorizes(before, events[i].req, events[i].now);
    assert EvidenceGrows(before.evidence, Exec(Initial(creation), events).evidence) by {
      PrefixGrows(Initial(creation), events, i);
    }
  }

  lemma {:induction false} DestroyedFromDestroying(history: seq<HistoryRow>)
    requires Chained(history) && StateAfter(history).Destroyed?
    ensures |history| >= 2 && history[|history| - 2].newState.Destroying?
  {
  }

  /** A destroyed workspace entered DESTROYING under such an authorization. */
  lemma {:induction false} DestroyedWasAuthorized(creation: Creation, events: seq<Event>) returns (i: int, a: Id)
    requires Exec(Initial(creation), events).row.state.Destroyed?
    ensures 0 <= i < |events| && events[i].Call? && events[i].req.target.Destroying?
    ensures AuthorizedBy(Exec(Initial(creation), events[..i]), Destroying, events[i].now, a)
    ensures var e := Exec(Initial(creation), events).evidence;
            && a in e.authorizations && PlannedAs(e, e.authorizations[a].plan, Destroy)
            && e.authorizations[a] == Exec(Initial(creation), events[..i]).evidence.authorizations[a]
  {
    var s := Exec(Initial(creation), events);
    assert |s.history| >= 2 && s.history[|s.history| - 2].newState.Destroying? by {
      ChainedRun(creation, events);
      DestroyedFromDestroying(s.history);
    }
    i, a := DestructionIsAuthorized(creation, events, |s.history| - 2);
  }

  /** A destroyed workspace was not held when it was declared so, and a verified attestation
    * without residue was stored then and still is. */
  lemma {:induction false} DestroyedIsAttested(creation: Creation, events: seq<Event>) returns (i: int, k: PlanKey)
    requires Exec(Initial(creation), events).row.state.Destroyed?
    ensures var s := Exec(Initial(creation), events);
            && WritesRow(Initial(creation), events, i, |s.history| - 1)
            && events[i].req.target.Destroyed?
            && !Exec(Initial(creation), events[..i]).row.legalHoldActive
    ensures var atEntry := Exec(Initial(creation), events[..i]).evidence;
            var e := Exec(Initial(creation), events).evidence;
            && Attests(atEntry, k, Destroy) && atEntry.attestations[k].residueCount == 0
            && Distinct(atEntry.attestations[k].who)
            && k in e.attestations && e.attestations[k] == atEntry.attestations[k]
  {
    hide Committed, Refusal, Persisted, RevisionAt, Chained;
    var s := Exec(Initial(creation), events);
    assert s.history != [] && s.history[|s.history| - 1].newState.Destroyed? by { ChainedRun(creation, events); }
    i := EveryRowPassedItsGate(creation, events, |s.history| - 1);
    var before := Exec(Initial(creation), events[..i]);
    assert events[i].req.target.Destroyed?;
    k :| k in before.evidence.attestations && Attests(before.evidence, k, Destroy);
    hide Exec;
    assert Constraints(before.evidence) by { Reachable(creation, events[..i]); }
  }

  lemma {:induction false} DestroyedAbsorbs(s: Store, e: Event)
    requires s.row.state.Destroyed?
    ensures Apply(s, e).row.state.Destroyed? && Apply(s, e).history == s.history
  {
  }

  /** Destruction is final: no event moves a destroyed workspace. */
  lemma {:induction false} DestroyedStays(s: Store, events: seq<Event>)
    requires s.row.state.Destroyed?
    ensures Exec(s, events).row.state.Destroyed? && Exec(s, events).history == s.history
    decreases |events|
  {
    if events != [] {
      var n := |events| - 1;
      DestroyedStays(s, events[..n]);
      DestroyedAbsorbs(Exec(s, events[..n]), events[n]);
    }
  }

  // ----- legal hold -----

  /** While a hold stands, no run takes a step towards destruction. */
  lemma {:induction false} HoldProtects(s: Store, events: seq<Event>)
    requires s.row.legalHoldActive && forall e | e in events :: !e.SetHold?
    ensures Exec(s, events).row.legalHoldActive
    ensures s.history <= Exec(s, events).history
    ensures forall k | |s.history| <= k < |Exec(s, events).history| ::
              Exec(s, events).history[k].newState !in {ResetAuthorized, Purging, Destroying, Destroyed}
    decreases |events|
  {
    if events != [] {
      var n := |events| - 1;
      var before := Exec(s, events[..n]);
      assert !events[n].SetHold?;
      HoldProtects(s, events[..n]);
      HeldStep(before, events[n]);
    }
  }

  lemma {:induction false} HeldStep(s: Store, e: Event)
    requires s.row.legalHoldActive && !e.SetHold?
    ensures Apply(s, e).row.legalHoldActive && s.history <= Apply(s, e).history
    ensures forall k | |s.history| <= k < |Apply(s, e).history| ::
              Apply(s, e).history[k].newState !in {ResetAuthorized, Purging, Destroying, Destroyed}
  {
  }

  /** A hold update goes through when its revision is positive and, if it moves the hold, an
    * operation id is set. */
  predicate HoldUpdated(standing: bool, e: Event) {
    e.SetHold? && e.newRevision >= 1 && (e.operationId != "" || e.active == standing)
  }

  /** What the hold updates of a run say. */
  function LastHold(events: seq<Event>): bool {
    if events == [] then false
    else
      var standing := LastHold(events[..|events| - 1]);
      var e := events[|events| - 1];
      if HoldUpdated(standing, e) then e.active else standing
  }

  /** The hold is always as the last update that went through has set it: nothing else moves it. */
  lemma {:induction false} HoldIsLastSet(creation: Creation, events: seq<Event>)
    ensures Exec(Initial(creation), events).row.legalHoldActive == LastHold(events)
    decreases |events|
  {
    hide Gate, Checkpointed;
    if events != [] {
      HoldIsLastSet(creation, events[..|events| - 1]);
    }
  }

  /** Such an update writes the two columns and leaves the rest; any other changes nothing. */
  lemma {:induction false} HoldUpdateWrites(s: Store, e: Event)
    requires e.SetHold?
    ensures HoldUpdated(s.row.legalHoldActive, e) ==>
              Apply(s, e) == s.(row := s.row.(legalHoldActive := e.active, revision := e.newRevision))
    ensures !HoldUpdated(s.row.legalHoldActive, e) ==> Apply(s, e) == s
  {
  }

  // ----- revoked authorizations -----

  /** An accepted invalidation is final: whatever is recorded later, its authorization is not live. */
  lemma {:induction false} RevocationIsFinal(e: Evidence, id: Id, i: Invalidation, rows: seq<Row>, now: int)
    requires Accepts(e, InvalidationRow(id, i))
    ensures !Live(Recorded(Inserted(e, InvalidationRow(id, i)), rows), i.authorization, now)
  {
    var revoked := Inserted(e, InvalidationRow(id, i));
    assert id in revoked.invalidations && revoked.invalidations[id] == i;
    hide Accepts, Inserted;
    RecordedGrows(revoked, rows);
  }

  /** An authorization that has not expired and that no stored row revokes: what `Live` asks, in the
    * columns of the tables. */
  predicate Usable(e: Evidence, a: Id, now: int) {
    && a in e.authorizations && e.authorizations[a].expiresAt > now
    && forall i | i in e.invalidations :: e.invalidations[i].authorization != a
  }

  lemma {:induction false} GateNeedsUsable(s: Store, req: Request, now: int) returns (a: Id)
    requires Refusal(s, req, now).None?
    requires req.target.ResetAuthorized? || req.target.Purging? || req.target.Destroying?
    ensures Usable(s.evidence, a, now)
  {
    var e := s.evidence;
    if req.target.ResetAuthorized? {
      a :| a in e.authorizations && Live(e, a, now);
    } else if req.target.Purging? {
      a :| a in e.authorizations && Live(e, a, now) && AuthorizesReset(e, a, req.expectedVersion);
    } else {
      a :| a in e.authorizations && Live(e, a, now) && AuthorizesDestroy(e, a);
    }
  }

  /** So once its invalidation is accepted, no later entry to RESET_AUTHORIZED, PURGING or
    * DESTROYING rests on the authorization: another one is usable then. */
  lemma {:induction false} RevokedNeverServes(
      creation: Creation, events: seq<Event>, i: nat, j: nat, id: Id, revoked: Invalidation) returns (a: Id)
    requires i < j < |events| && events[i] == Record(InvalidationRow(id, revoked))
    requires Accepts(Exec(Initial(creation), events[..i]).evidence, InvalidationRow(id, revoked))
    requires Commits(Exec(Initial(creation), events[..j]), events[j])
    requires var target := events[j].req.target;
             target.ResetAuthorized? || target.Purging? || target.Destroying?
    ensures var e := Exec(Initial(creation), events[..j]).evidence;
            !Usable(e, revoked.authorization, events[j].now) && Usable(e, a, events[j].now)
            && a != revoked.authorization
  {
    hide Gate, Accepts, Checkpointed;
    var s := Exec(Initial(creation), events[..j]);
    a := GateNeedsUsable(s, events[j].req, events[j].now);
    assert Exec(Initial(creation), events[..i + 1]) == Apply(Exec(Initial(creation), events[..i]), events[i]) by {
      assert events[..i + 1][..i] == events[..i];
    }
    assert events[..j][..i + 1] == events[..i + 1];
    PrefixGrows(Initial(creation), events[..j], i + 1);
    assert id in s.evidence.invalidations && s.evidence.invalidations[id] == revoked;
  }

  // ----- spoiled plans -----

  /** A receipt of the plan that reports anything but an item deleted or already absent. */
  predicate BadReceiptOf(e: Evidence, r: Id, plan: PlanKey) {
    && r in e.receipts && e.receipts[r].plan == plan
    && e.receipts[r].outcome in {DeleteFailed, DeleteIncomplete, ResidueDetected}
  }

  lemma {:induction false} BadReceiptSpoils(e: Evidence, r: Id, plan: PlanKey)
    requires BadReceiptOf(e, r, plan)
    ensures !Purged(e, plan)
  {
  }

  /** Once a plan has a failed, incomplete or residue receipt, every later entry to
    * VERIFYING_RESET is witnessed by another plan or plan version, which has none. */
  lemma {:induction false} SpoiledPlanNeverWitnesses(
      creation: Creation, events: seq<Event>, i: nat, j: nat, r: Id, plan: PlanKey) returns (other: PlanKey)
    requires i <= j < |events|
    requires BadReceiptOf(Exec(Initial(creation), events[..i]).evidence, r, plan)
    requires Commits(Exec(Initial(creation), events[..j]), events[j]) && events[j].req.target.VerifyingReset?
    ensures var e := Exec(Initial(creation), events[..j]).evidence;
            && !Purged(e, plan) && other != plan && Purged(e, other)
            && forall q :: !BadReceiptOf(e, q, other)
  {
    var s := Exec(Initial(creation), events[..j]);
    assert events[..j][..i] == events[..i];
    PrefixGrows(Initial(creation), events[..j], i);
    BadReceiptSpoils(s.evidence, r, plan);
    PurgeGate(s, events[j].req, events[j].now);
    other :| other in s.evidence.plans && Purged(s.evidence, other);
    forall q
      ensures !BadReceiptOf(s.evidence, q, other)
    {
      if BadReceiptOf(s.evidence, q, other) {
        BadReceiptSpoils(s.evidence, q, other);
      }
    }
  }

  lemma {:induction false} PurgeGate(s: Store, req: Request, now: int)
    requires Refusal(s, req, now).None? && req.target.VerifyingReset?
    ensures exists p | p in s.evidence.plans :: Purged(s.evidence, p)
  {
  }
}
