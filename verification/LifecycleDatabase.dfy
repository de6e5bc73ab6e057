/** The stored function, the triggers and the inserts as they run: statement by statement,
  * with the rollback of a failed transaction, each proved to be the step of the value model.
  */
module LifecycleDatabase {
  import opened Wrappers
  import opened LifecycleStates
  import opened LifecycleEvidence
  import opened LifecycleTransition

  class Database {
    var row: Workspace
    var commands: map<string, Command>
    var history: seq<HistoryRow>
    var revisions: seq<RevisionRow>
    var outbox: seq<OutboxEvent>
    var evidence: Evidence
    var content: map<Id, string>

    /** The tables as one value. */
    ghost function Contents(): Store
      reads this
    {
      Store(row, commands, history, revisions, outbox, evidence, content)
    }

    constructor (creation: Creation)
      ensures Contents() == Initial(creation)
    {
      row := Workspace(Provisioning, 1, 1, 1, false, false, None, None, creation.policies);
      commands := map[];
      history, outbox := [], [];
      revisions := [RevisionRow(1, Provisioning, creation.policies, Some(creation.createdBy), creation.createdAt)];
      evidence := NoEvidence;
      content := map[];
    }

    /** The stored function `transition_lifecycle`. */
    method TransitionLifecycle(req: Request, now: int) returns (response: Response)
      modifies this
      ensures (Contents(), response) == Transition(old(Contents()), req, now)
    {
      if req.operationKey in commands {
        var prior := commands[req.operationKey];
        if prior.digest != req.digest || prior.target != req.target {
          return Err(IdempotencyConflict);
        }
        return Ok(Outcome(prior.outcomeState, prior.outcomeVersion, true));
      }
      response := LockedTransition(req, now);
    }

    /** The rest of the function, from the row lock on. */
    method LockedTransition(req: Request, now: int) returns (response: Response)
      modifies this
      ensures (Contents(), response) == LockCheckCommit(old(Contents()), req, now)
    {
      var failure := CheckTransition(req, now);
      if failure.Some? {
        return Err(failure.value);
      }
      var savedRow, savedCommands, savedHistory, savedRevisions, savedOutbox :=
        row, commands, history, revisions, outbox;
      failure := WriteTransition(req, now);
      if failure.Some? {
        row, commands, history, revisions, outbox :=
          savedRow, savedCommands, savedHistory, savedRevisions, savedOutbox;
        return Err(failure.value);
      }
      return Ok(Outcome(Some(req.target), Some(req.expectedVersion + 1), false));
    }

    /** Version, transition table, hold, purge, checkpoint and evidence, in that order. */
    method CheckTransition(req: Request, now: int) returns (failure: Option<Failure>)
      ensures failure == Objection(Contents(), req, now)
      ensures failure.None? ==>
                && req.expectedVersion == row.lifecycleVersion && Allowed(row.state, req.target)
                && Gate(evidence, req.target, row.lifecycleVersion, row.workspaceRevision, now)
                && !(row.legalHoldActive && Destructive(req.target))
      ensures failure == Some(LegalHold) ==>
                && row.legalHoldActive
                && row.state in {ResetPlanning, ResetAuthorized, RecoveryRequired, ResetVerified, Destroying}
      ensures failure == Some(ReopenAfterPurge) ==> row.state.Closed? && row.purgeStartedAt.Some?
      ensures failure == Some(CheckpointRequired) ==>
                && row.state.RecoveryRequired?
                && !Checkpointed(evidence, if req.target.Purging? then "reset" else "destroy")
    {
      if row.lifecycleVersion != req.expectedVersion {
        return Some(VersionConflict);
      }
      if !Allowed(row.state, req.target) {
        return Some(InvalidTransition);
      }
      if row.legalHoldActive && Destructive(req.target) {
        return Some(LegalHold);
      }
      if row.purgeStartedAt.Some? && req.target.Reopening? {
        return Some(ReopenAfterPurge);
      }
      if row.state.RecoveryRequired? && (req.target.Purging? || req.target.Destroying?) {
        if !Checkpointed(evidence, if req.target.Purging? then "reset" else "destroy") {
          return Some(CheckpointRequired);
        }
      }
      if !Gate(evidence, req.target, req.expectedVersion, row.workspaceRevision, now) {
        return Some(EvidenceRequired(req.target));
      }
      return None;
    }

    /** The writes, in order; a constraint that fails leaves the earlier ones behind. */
    method WriteTransition(req: Request, now: int) returns (failure: Option<Failure>)
      modifies this
      ensures failure == Collision(old(Contents()), req, now)
      ensures failure.None? ==> Contents() == Committed(old(Contents()), req, now)
      ensures evidence == old(evidence) && content == old(content)
    {
      if req.operationKey in commands {
        return Some(DuplicateOperation);
      }
      commands := commands[req.operationKey := Command(req.digest, req.target, req.expectedVersion, None, None, None)];

      var current := row;
      var reopening := current.state.Reopening? && req.target.Active?;
      var nextRevision := current.workspaceRevision + if reopening then 1 else 0;
      var updated := current.(
        state := req.target,
        lifecycleVersion := current.lifecycleVersion + 1,
        workspaceRevision := nextRevision,
        revision := current.revision + 1,
        writeFenced := !Writable(req.target),
        purgeStartedAt := if req.target.Purging? then Some(now) else current.purgeStartedAt,
        destroyedAt := if req.target.Destroyed? then Some(now) else current.destroyedAt);
      assert updated == Moved(current, req.target, now);
      if !GuardAdmits(current, updated, req.operationKey) {
        return Some(DirectMutation);
      }
      row := updated;

      if req.origin.actor.None? && req.origin.service.None? {
        return Some(MissingIdentity);
      }
      if exists h | h in history :: h.version == req.expectedVersion + 1 {
        return Some(DuplicateVersion);
      }
      var entry := HistoryRow(req.expectedVersion + 1, req.operationKey, current.state, req.target, req.origin, now);
      assert entry == HistoryOf(current, req, now);
      history := history + [entry];

      if reopening {
        if exists v | v in revisions :: v.revision == nextRevision {
          return Some(DuplicateRevision);
        }
        var createdBy := if req.origin.actor.Some? then req.origin.actor else req.origin.service;
        revisions := revisions + [RevisionRow(nextRevision, req.target, current.policies, createdBy, now)];
      }

      outbox := outbox + [OutboxEvent(req.expectedVersion + 1, current.state, req.target, req.operationKey,
                                      req.digest, req.origin.correlation, now)];

      commands := commands[req.operationKey := commands[req.operationKey].(
        outcomeState := Some(req.target),
        outcomeVersion := Some(req.expectedVersion + 1),
        completedAt := Some(now))];
      assert commands == old(commands)[req.operationKey := CommandOf(req, now)];
      return None;
    }

    /** INSERT into one of the evidence tables. */
    method RecordEvidence(evidenceRow: Row) returns (accepted: bool)
      modifies this
      ensures accepted == Accepts(old(evidence), evidenceRow)
      ensures Contents() == Apply(old(Contents()), Record(evidenceRow))
    {
      accepted := Accepts(evidence, evidenceRow);
      if accepted {
        evidence := Inserted(evidence, evidenceRow);
      }
    }

    /** The only columns of the row the lifecycle service may update itself. */
    method SetLegalHold(active: bool, newRevision: int, operationId: string) returns (accepted: bool)
      modifies this
      ensures Contents() == Apply(old(Contents()), SetHold(active, newRevision, operationId))
      ensures accepted <==> newRevision >= 1 && (active == old(row.legalHoldActive) || operationId != "")
      ensures row.state == old(row.state) && row.lifecycleVersion == old(row.lifecycleVersion)
    {
      var updated := row.(legalHoldActive := active, revision := newRevision);
      accepted := newRevision >= 1 && GuardAdmits(row, updated, operationId);
      if accepted {
        row := updated;
      }
    }

    /** A write to a material table, through the fence trigger. */
    method WriteMaterial(w: Write) returns (admitted: bool)
      modifies this
      ensures admitted == Writable(old(row.state))
      ensures Contents() == Apply(old(Contents()), MaterialWrite(w))
    {
      if !Writable(row.state) {
        return false;
      }
      match w {
        case InsertRow(id, value) => if id !in content { content := content[id := value]; }
        case UpdateRow(id, value) => if id in content { content := content[id := value]; }
        case DeleteRow(id) => content := content - {id};
      }
      return true;
    }

    /** The executor's DELETE, which the fence lets through in every state. */
    method DeleteMaterial(id: Id)
      modifies this
      ensures Contents() == Apply(old(Contents()), ExecutorDelete(id))
    {
      content := content - {id};
    }

    method DeleteOutboxRow(index: nat)
      modifies this
      ensures Contents() == Apply(old(Contents()), ExecutorDrain(index))
    {
      if index < |outbox| {
        outbox := outbox[..index] + outbox[index + 1..];
      }
    }
  }
}
