/** When a call is accepted and what it answers, in the columns of the tables. */
module LifecycleAnswers {
  import opened Wrappers
  import opened LifecycleStates
  import opened LifecycleEvidence
  import opened LifecycleTransition
  import opened LifecycleRuns
  import opened LifecycleShape
  import opened LifecycleDestruction
  import opened LifecycleRoutes

  // ----- the transition table -----

  /** The pairs the stored function lists. */
  predicate Listed(from: State, to: State) {
    || (from.Provisioning? && to.Active?)
    || (from.Active? && to.Freezing?)
    || (from.Freezing? && to.Frozen?)
    || (from.Freezing? && to.RecoveryRequired?)
    || (from.Frozen? && to.Finalizing?)
    || (from.Finalizing? && to.Finalized?)
    || (from.Finalizing? && to.RecoveryRequired?)
    || (from.Finalized? && to.Exporting?)
    || (from.Exporting? && to.Exported?)
    || (from.Exporting? && to.RecoveryRequired?)
    || (from.Exported? && to.Archiving?)
    || (from.Archiving? && to.Archived?)
    || (from.Archiving? && to.RecoveryRequired?)
    || (from.Archived? && to.Closed?)
    || (from.Closed? && to.Reopening?)
    || (from.Reopening? && to.Active?)
    || (from.Reopening? && to.RecoveryRequired?)
    || (from.Closed? && to.ResetPlanning?)
    || (from.ResetPlanning? && to.ResetAuthorized?)
    || (from.ResetPlanning? && to.Closed?)
    || (from.ResetAuthorized? && to.Purging?)
    || (from.ResetAuthorized? && to.RecoveryRequired?)
    || (from.Purging? && to.VerifyingReset?)
    || (from.Purging? && to.RecoveryRequired?)
    || (from.VerifyingReset? && to.ResetVerified?)
    || (from.VerifyingReset? && to.RecoveryRequired?)
    || (from.VerifyingReset? && to.Quarantined?)
    || (from.ResetVerified? && to.Destroying?)
    || (from.Destroying? && to.Destroyed?)
    || (from.Destroying? && to.RecoveryRequired?)
    || (from.Destroying? && to.Quarantined?)
    || (from.RecoveryRequired? && to.Purging?)
    || (from.RecoveryRequired? && to.Destroying?)
    || (from.RecoveryRequired? && to.RecoveryRequired?)
    || (from.RecoveryRequired? && to.Quarantined?)
    || (from.Quarantined? && to.RecoveryRequired?)
  }

  lemma {:induction false} TableIsListed(from: State, to: State)
    ensures Allowed(from, to) <==> Listed(from, to)
  {
  }

  // ----- which states can be entered -----

  /** Some call made at `now` enters the target. */
  ghost predicate Enterable(s: Store, target: State, now: int) {
    exists e :: Enters(s, e, target, now)
  }

  predicate Enters(s: Store, e: Event, target: State, now: int) {
    Commits(s, e) && e.req.target == target && e.now == now
  }

  /** The guards before the evidence is asked for. */
  predicate Unguarded(s: Store, target: State) {
    && Listed(s.row.state, target)
    && (s.row.legalHoldActive ==>
          !target.ResetAuthorized? && !target.Purging? && !target.Destroying? && !target.Destroyed?)
    && (s.row.state.RecoveryRequired? && target.Purging? ==> CheckpointStored(s.evidence, "reset"))
    && (s.row.state.RecoveryRequired? && target.Destroying? ==> CheckpointStored(s.evidence, "destroy"))
  }

  /** An open checkpoint for the failed operation, with the digest of a stored plan. */
  predicate CheckpointStored(e: Evidence, operation: string) {
    exists c | c in e.checkpoints ::
      && e.checkpoints[c].failedOperation == operation && e.checkpoints[c].status == Required
      && exists p | p in e.plans :: e.plans[p].planDigest == e.checkpoints[c].planDigest
  }

  lemma {:induction false} CheckpointIsStored(e: Evidence, operation: string)
    ensures Checkpointed(e, operation) <==> CheckpointStored(e, operation)
  {
  }

  lemma {:induction false} GuardsInColumns(s: Store, req: Request, now: int)
    requires s.row.purgeStartedAt.Some? ==> !s.row.state.Closed?
    requires req.expectedVersion == s.row.lifecycleVersion
    ensures Objection(s, req, now).None? <==>
              Unguarded(s, req.target)
              && Gate(s.evidence, req.target, s.row.lifecycleVersion, s.row.workspaceRevision, now)
  {
    hide Gate, Checkpointed, CheckpointStored;
    TableIsListed(s.row.state, req.target);
    CheckpointIsStored(s.evidence, "reset");
    CheckpointIsStored(s.evidence, "destroy");
  }

  lemma {:induction false} EnterableAt(s: Store, target: State, now: int)
    requires Sound(s) && (s.row.purgeStartedAt.Some? ==> !s.row.state.Closed?)
    ensures Enterable(s, target, now) <==>
              Unguarded(s, target)
              && Gate(s.evidence, target, s.row.lifecycleVersion, s.row.workspaceRevision, now)
  {
    hide Gate, Unguarded, Objection, Collision, LogAgrees;
    if e :| Enters(s, e, target, now) {
      assert Objection(s, e.req, now).None?;
      assert e.req.expectedVersion == s.row.lifecycleVersion by { ObjectsToVersion(s, e.req, now); }
      GuardsInColumns(s, e.req, now);
    }
    var step := StepTo(s, target, now);
    GuardsInColumns(s, step.req, now);
    KeyIsFree(s, target, now);
    assert Objection(s, step.req, now).None? ==> Enters(s, step, target, now);
  }

  lemma {:induction false} ObjectsToVersion(s: Store, req: Request, now: int)
    requires Objection(s, req, now).None?
    ensures req.expectedVersion == s.row.lifecycleVersion
  {
  }

  lemma {:induction false} EnterableInRun(creation: Creation, events: seq<Event>, target: State, now: int)
    ensures var s := Exec(Initial(creation), events);
            && s.row.lifecycleVersion == |s.history| + 1
            && (Enterable(s, target, now) <==>
                  Unguarded(s, target)
                  && Gate(s.evidence, target, |s.history| + 1, s.row.workspaceRevision, now))
  {
    hide Exec, Gate, Unguarded, Enterable;
    Reachable(creation, events);
    PurgedIsDoomed(creation, events);
    EnterableAt(Exec(Initial(creation), events), target, now);
  }

  /** The eleven targets without evidence: the guards decide. */
  lemma {:induction false} UngatedIff(creation: Creation, events: seq<Event>, target: State, now: int)
    requires target in {Active, Freezing, Finalizing, Exporting, Archiving, Closed, Reopening, ResetPlanning,
                        RecoveryRequired, Quarantined, Provisioning}
    ensures var s := Exec(Initial(creation), events);
            Enterable(s, target, now) <==> Listed(s.row.state, target)
  {
    hide Exec, Enterable;
    EnterableInRun(creation, events, target, now);
  }

  /** FROZEN and FINALIZED: a verified row for the version the workspace is at. */
  lemma {:induction false} VersionTaggedIff(creation: Creation, events: seq<Event>, now: int)
    ensures var s := Exec(Initial(creation), events);
            && (Enterable(s, Frozen, now) <==>
                  s.row.state.Freezing?
                  && exists f | f in s.evidence.manifests ::
                       s.evidence.manifests[f].lifecycleVersion == |s.history| + 1
                       && s.evidence.manifests[f].result == Verified)
            && (Enterable(s, Finalized, now) <==>
                  s.row.state.Finalizing?
                  && exists f | f in s.evidence.reports ::
                       s.evidence.reports[f].lifecycleVersion == |s.history| + 1
                       && s.evidence.reports[f].outcome == Verified)
  {
    hide Exec, Enterable;
    EnterableInRun(creation, events, Frozen, now);
    EnterableInRun(creation, events, Finalized, now);
  }

  /** EXPORTED: a verified export of the revision. ARCHIVED: a verified check of a verified package. */
  lemma {:induction false} ExportAndArchiveIff(creation: Creation, events: seq<Event>, now: int)
    ensures var s := Exec(Initial(creation), events);
            && (Enterable(s, Exported, now) <==>
                  s.row.state.Exporting?
                  && exists x | x in s.evidence.exports ::
                       s.evidence.exports[x].workspaceRevision == s.row.workspaceRevision
                       && s.evidence.exports[x].state == Verified)
            && (Enterable(s, Archived, now) <==>
                  s.row.state.Archiving?
                  && exists v, p | v in s.evidence.verifications && p in s.evidence.packages ::
                       s.evidence.verifications[v].package == p
                       && s.evidence.verifications[v].outcome == Verified && s.evidence.packages[p].state == Verified)
  {
    hide Exec, Enterable;
    EnterableInRun(creation, events, Exported, now);
    EnterableInRun(creation, events, Archived, now);
  }

  /** RESET_AUTHORIZED: an authorization of any plan, unexpired and not revoked, and no hold. */
  lemma {:induction false} ResetAuthorizedIff(creation: Creation, events: seq<Event>, now: int)
    ensures var s := Exec(Initial(creation), events);
            var e := s.evidence;
            Enterable(s, ResetAuthorized, now) <==>
              s.row.state.ResetPlanning? && !s.row.legalHoldActive
              && exists a :: Usable(e, a, now)
  {
    hide Exec, Enterable;
    EnterableInRun(creation, events, ResetAuthorized, now);
    var e := Exec(Initial(creation), events).evidence;
    forall a
      ensures Live(e, a, now) <==> Usable(e, a, now)
    {
      LiveIsUsable(e, a, now);
    }
  }

  lemma {:induction false} LiveIsUsable(e: Evidence, a: Id, now: int)
    ensures Live(e, a, now) <==> Usable(e, a, now)
  {
  }

  /** PURGING: an authorization for a stored reset plan under its own digest, prepared at no later
    * version, unexpired and not revoked, and no hold; after a recovery also a checkpoint. */
  lemma {:induction false} PurgingIff(creation: Creation, events: seq<Event>, now: int)
    ensures var s := Exec(Initial(creation), events);
            var e := s.evidence;
            Enterable(s, Purging, now) <==>
              && (s.row.state.ResetAuthorized? || (s.row.state.RecoveryRequired? && CheckpointStored(e, "reset")))
              && !s.row.legalHoldActive
              && exists a ::
                   && Usable(e, a, now)
                   && var p := e.authorizations[a].plan;
                   && p in e.plans && e.plans[p].kind == Reset
                   && e.plans[p].planDigest == e.authorizations[a].planDigest
                   && e.plans[p].lifecycleVersion <= |s.history| + 1
  {
    hide Exec, Enterable, CheckpointStored;
    EnterableInRun(creation, events, Purging, now);
    var e := Exec(Initial(creation), events).evidence;
    forall a
      ensures Live(e, a, now) <==> Usable(e, a, now)
    {
      LiveIsUsable(e, a, now);
    }
  }

  /** DESTROYING: an authorization for a stored destroy plan, likewise, but neither its digest nor
    * its version is compared. */
  lemma {:induction false} DestroyingIff(creation: Creation, events: seq<Event>, now: int)
    ensures var s := Exec(Initial(creation), events);
            var e := s.evidence;
            Enterable(s, Destroying, now) <==>
              && (s.row.state.ResetVerified? || (s.row.state.RecoveryRequired? && CheckpointStored(e, "destroy")))
              && !s.row.legalHoldActive
              && exists a ::
                   && Usable(e, a, now)
                   && e.authorizations[a].plan in e.plans && e.plans[e.authorizations[a].plan].kind == Destroy
  {
    hide Exec, Enterable, CheckpointStored;
    EnterableInRun(creation, events, Destroying, now);
    var e := Exec(Initial(creation), events).evidence;
    forall a
      ensures Live(e, a, now) <==> Usable(e, a, now)
    {
      LiveIsUsable(e, a, now);
    }
  }

  /** Every receipt of the plan says deleted or already absent, and there are as many as items. */
  predicate ReceiptsComplete(e: Evidence, p: PlanKey)
    requires p in e.plans
  {
    && (forall r | r in e.receipts && e.receipts[r].plan == p :: e.receipts[r].outcome in {Deleted, AlreadyAbsent})
    && |set r | r in e.receipts && e.receipts[r].plan == p| >= |e.plans[p].items|
  }

  lemma {:induction false} PurgedInColumns(e: Evidence, p: PlanKey)
    requires p in e.plans
    ensures Purged(e, p) <==> e.plans[p].kind == Reset && ReceiptsComplete(e, p)
  {
    if !HasBadReceipt(e, p) {
      forall r | r in e.receipts && e.receipts[r].plan == p
        ensures Good(e.receipts[r])
      {
      }
      assert GoodReceipts(e, p) == set r | r in e.receipts && e.receipts[r].plan == p;
    }
  }

  /** VERIFYING_RESET: a stored reset plan whose receipts all say deleted or already absent and are
    * at least as many as its items. */
  lemma {:induction false} VerifyingResetIff(creation: Creation, events: seq<Event>, now: int)
    ensures var s := Exec(Initial(creation), events);
            Enterable(s, VerifyingReset, now) <==>
              s.row.state.Purging?
              && exists p | p in s.evidence.plans ::
                   s.evidence.plans[p].kind == Reset && ReceiptsComplete(s.evidence, p)
  {
    hide Exec, Enterable;
    EnterableInRun(creation, events, VerifyingReset, now);
    var e := Exec(Initial(creation), events).evidence;
    forall p | p in e.plans
      ensures Purged(e, p) <==> e.plans[p].kind == Reset && ReceiptsComplete(e, p)
    {
      PurgedInColumns(e, p);
    }
  }

  /** A verified attestation of unchanged platform integrity for a stored plan of the kind. */
  predicate AttestationStored(e: Evidence, kind: OperationKind) {
    exists k | k in e.attestations ::
      && e.attestations[k].outcome == Verified && e.attestations[k].integrity == Unchanged
      && e.attestations[k].plan in e.plans && e.plans[e.attestations[k].plan].kind == kind
  }

  /** RESET_VERIFIED and DESTROYED: such an attestation; DESTROYED also that no hold stands. */
  lemma {:induction false} AttestedIff(creation: Creation, events: seq<Event>, now: int)
    ensures var s := Exec(Initial(creation), events);
            && (Enterable(s, ResetVerified, now) <==>
                  s.row.state.VerifyingReset? && AttestationStored(s.evidence, Reset))
            && (Enterable(s, Destroyed, now) <==>
                  s.row.state.Destroying? && !s.row.legalHoldActive && AttestationStored(s.evidence, Destroy))
  {
    hide Exec, Enterable;
    EnterableInRun(creation, events, ResetVerified, now);
    EnterableInRun(creation, events, Destroyed, now);
  }

  // ----- the answers, in the order of the checks -----

  predicate FirstUse(s: Store, req: Request) {
    req.operationKey !in s.commands
  }

  /** What a call with an unused key is told: the first check that fails, in this order. */
  lemma {:induction false} AnswersInOrder(creation: Creation, events: seq<Event>, req: Request, now: int)
    requires FirstUse(Exec(Initial(creation), events), req)
    ensures var s := Exec(Initial(creation), events);
            var answer := Transition(s, req, now).1;
            var destructive := req.target in {ResetAuthorized, Purging, Destroying, Destroyed};
            if req.expectedVersion != |s.history| + 1 then answer == Err(VersionConflict)
            else if !Listed(s.row.state, req.target) then answer == Err(InvalidTransition)
            else if s.row.legalHoldActive && destructive then answer == Err(LegalHold)
            else if !Unguarded(s, req.target) then answer == Err(CheckpointRequired)
            else if !Enterable(s, req.target, now) then answer == Err(EvidenceRequired(req.target))
            else if req.operationKey == "" then answer == Err(DirectMutation)
            else if req.origin.actor.None? && req.origin.service.None? then answer == Err(MissingIdentity)
            else answer == Ok(Outcome(Some(req.target), Some(|s.history| + 2), false))
  {
    hide Exec, Gate, Enterable, CheckpointStored, Checkpointed, Objection, Unguarded, Collision, Listed;
    var s := Exec(Initial(creation), events);
    Reachable(creation, events);
    PurgedIsDoomed(creation, events);
    EnterableInRun(creation, events, req.target, now);
    ObjectionsInOrder(s, req, now);
    if req.expectedVersion == s.row.lifecycleVersion {
      CollisionsInOrder(s, req, now);
    }
  }

  lemma {:induction false} ObjectionsInOrder(s: Store, req: Request, now: int)
    requires s.row.purgeStartedAt.Some? ==> !s.row.state.Closed?
    ensures var objection := Objection(s, req, now);
            var destructive := req.target in {ResetAuthorized, Purging, Destroying, Destroyed};
            if req.expectedVersion != s.row.lifecycleVersion then objection == Some(VersionConflict)
            else if !Listed(s.row.state, req.target) then objection == Some(InvalidTransition)
            else if s.row.legalHoldActive && destructive then objection == Some(LegalHold)
            else if !Unguarded(s, req.target) then objection == Some(CheckpointRequired)
            else if !Gate(s.evidence, req.target, s.row.lifecycleVersion, s.row.workspaceRevision, now)
              then objection == Some(EvidenceRequired(req.target))
            else objection == None
  {
    hide Gate, Checkpointed, CheckpointStored, Listed, Allowed;
    TableIsListed(s.row.state, req.target);
    CheckpointIsStored(s.evidence, "reset");
    CheckpointIsStored(s.evidence, "destroy");
    ReopeningOnlyFromClosed(s.row.state);
  }

  lemma {:induction false} ReopeningOnlyFromClosed(from: State)
    ensures Listed(from, Reopening) ==> from.Closed?
  {
  }

  lemma {:induction false} CollisionsInOrder(s: Store, req: Request, now: int)
    requires LogAgrees(s) && FirstUse(s, req) && req.expectedVersion == s.row.lifecycleVersion
    ensures var collision := Collision(s, req, now);
            if req.operationKey == "" then collision == Some(DirectMutation)
            else if req.origin.actor.None? && req.origin.service.None? then collision == Some(MissingIdentity)
            else collision == None
  {
    NextNumbersFree(s);
    hide LogAgrees;
  }
}
