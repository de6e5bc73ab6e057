/** The stored workspace and the effect of one lifecycle call on it, as a value. */
module LifecycleTransition {
  import opened Wrappers
  import opened LifecycleStates
  import opened LifecycleEvidence

  /** The workspace row. `policies` stands for the policy columns a revision row copies. */
  datatype Workspace = Workspace(
    state: State, lifecycleVersion: int, workspaceRevision: int, revision: int,
    writeFenced: bool, legalHoldActive: bool,
    purgeStartedAt: Option<int>, destroyedAt: Option<int>, policies: string)

  /** Who asked for a transition and in which causal chain. */
  datatype Provenance = Provenance(
    actor: Option<Identity>, service: Option<Identity>, authority: string,
    correlation: Id, causation: Option<Id>)

  datatype Request = Request(
    expectedVersion: int, target: State, operationKey: string, digest: Digest, origin: Provenance)

  datatype Command = Command(
    digest: Digest, target: State, expectedVersion: int,
    outcomeState: Option<State>, outcomeVersion: Option<int>, completedAt: Option<int>)

  datatype HistoryRow = HistoryRow(
    version: int, operationKey: string, priorState: State, newState: State, origin: Provenance, recordedAt: int)

  datatype RevisionRow = RevisionRow(
    revision: int, state: State, policies: string, createdBy: Option<Identity>, recordedAt: int)

  datatype OutboxEvent = OutboxEvent(
    aggregateVersion: int, priorState: State, newState: State, operationKey: string,
    payloadDigest: Digest, correlation: Id, createdAt: int)

  /** Everything one workspace owns. `content` is the union of the material tables. */
  datatype Store = Store(
    row: Workspace,
    commands: map<string, Command>,
    history: seq<HistoryRow>,
    revisions: seq<RevisionRow>,
    outbox: seq<OutboxEvent>,
    evidence: Evidence,
    content: map<Id, string>)

  datatype Failure =
    | IdempotencyConflict
    | VersionConflict
    | InvalidTransition
    | LegalHold
    | ReopenAfterPurge
    | CheckpointRequired
    | EvidenceRequired(target: State)
    | DuplicateOperation      // primary key of lifecycle_commands
    | DirectMutation          // the column guard of the workspace row
    | MissingIdentity         // CHECK of lifecycle_transition_history
    | DuplicateVersion        // primary key of lifecycle_transition_history
    | DuplicateRevision       // primary key of workspace_revisions

  /** The row a successful call returns. */
  datatype Outcome = Outcome(state: Option<State>, version: Option<int>, duplicate: bool)

  type Response = Result<Outcome, Failure>

  /** What the caller that creates a workspace chooses. */
  datatype Creation = Creation(policies: string, createdBy: Identity, createdAt: int)

  function FirstRevision(creation: Creation): RevisionRow {
    RevisionRow(1, Provisioning, creation.policies, Some(creation.createdBy), creation.createdAt)
  }

  /** A workspace as created: PROVISIONING, version 1, revision 1 with its row, unfenced. */
  function Initial(creation: Creation): Store {
    Store(Workspace(Provisioning, 1, 1, 1, false, false, None, None, creation.policies),
          map[], [], [FirstRevision(creation)], [], NoEvidence, map[])
  }

  /** The unlocked lookup: an answer when the operation key is already recorded. */
  function Prior(commands: map<string, Command>, req: Request): Option<Response> {
    if req.operationKey !in commands then None
    else
      var c := commands[req.operationKey];
      if c.digest != req.digest || c.target != req.target then Some(Err(IdempotencyConflict))
      else Some(Ok(Outcome(c.outcomeState, c.outcomeVersion, true)))
  }

  predicate Reopens(from: State, to: State) {
    from.Reopening? && to.Active?
  }

  predicate NeedsCheckpoint(from: State, to: State) {
    from.RecoveryRequired? && (to.Purging? || to.Destroying?)
  }

  function FailedOperation(target: State): string {
    if target.Purging? then "reset" else "destroy"
  }

  function NextRevision(row: Workspace, target: State): int {
    row.workspaceRevision + if Reopens(row.state, target) then 1 else 0
  }

  /** The column guard: lifecycle columns move only under an operation id. */
  predicate GuardAdmits(before: Workspace, after: Workspace, operationId: string) {
    || (before.state, before.lifecycleVersion, before.workspaceRevision, before.writeFenced, before.legalHoldActive)
       == (after.state, after.lifecycleVersion, after.workspaceRevision, after.writeFenced, after.legalHoldActive)
    || operationId != ""
  }

  function Moved(row: Workspace, target: State, now: int): Workspace {
    row.(state := target,
         lifecycleVersion := row.lifecycleVersion + 1,
         workspaceRevision := NextRevision(row, target),
         revision := row.revision + 1,
         writeFenced := !Writable(target),
         purgeStartedAt := if target.Purging? then Some(now) else row.purgeStartedAt,
         destroyedAt := if target.Destroyed? then Some(now) else row.destroyedAt)
  }

  /** The checks made under the row lock before anything is written, in their order. */
  function Objection(s: Store, req: Request, now: int): Option<Failure> {
    if s.row.lifecycleVersion != req.expectedVersion then Some(VersionConflict)
    else if !Allowed(s.row.state, req.target) then Some(InvalidTransition)
    else if s.row.legalHoldActive && Destructive(req.target) then Some(LegalHold)
    else if s.row.purgeStartedAt.Some? && req.target.Reopening? then Some(ReopenAfterPurge)
    else if NeedsCheckpoint(s.row.state, req.target) && !Checkpointed(s.evidence, FailedOperation(req.target)) then
      Some(CheckpointRequired)
    else if !Gate(s.evidence, req.target, req.expectedVersion, s.row.workspaceRevision, now) then
      Some(EvidenceRequired(req.target))
    else None
  }

  /** The constraints that can still fail while the five tables are written. */
  function Collision(s: Store, req: Request, now: int): Option<Failure> {
    if req.operationKey in s.commands then Some(DuplicateOperation)
    else if !GuardAdmits(s.row, Moved(s.row, req.target, now), req.operationKey) then Some(DirectMutation)
    else if req.origin.actor.None? && req.origin.service.None? then Some(MissingIdentity)
    else if exists h | h in s.history :: h.version == req.expectedVersion + 1 then Some(DuplicateVersion)
    else if Reopens(s.row.state, req.target)
            && exists v | v in s.revisions :: v.revision == NextRevision(s.row, req.target) then Some(DuplicateRevision)
    else None
  }

  function Refusal(s: Store, req: Request, now: int): Option<Failure> {
    if Objection(s, req, now).Some? then Objection(s, req, now) else Collision(s, req, now)
  }

  function CommandOf(req: Request, now: int): Command {
    Command(req.digest, req.target, req.expectedVersion, Some(req.target), Some(req.expectedVersion + 1), Some(now))
  }

  function HistoryOf(row: Workspace, req: Request, now: int): HistoryRow {
    HistoryRow(req.expectedVersion + 1, req.operationKey, row.state, req.target, req.origin, now)
  }

  /** COALESCE(actor, service). */
  function CreatedBy(origin: Provenance): Option<Identity> {
    if origin.actor.Some? then origin.actor else origin.service
  }

  function RevisionOf(row: Workspace, req: Request, now: int): RevisionRow {
    RevisionRow(NextRevision(row, req.target), req.target, row.policies, CreatedBy(req.origin), now)
  }

  function EventOf(h: HistoryRow, digest: Digest): OutboxEvent {
    OutboxEvent(h.version, h.priorState, h.newState, h.operationKey, digest, h.origin.correlation, h.recordedAt)
  }

  /** The five writes of an accepted transition. */
  function Committed(s: Store, req: Request, now: int): Store {
    var h := HistoryOf(s.row, req, now);
    s.(row := Moved(s.row, req.target, now),
       commands := s.commands[req.operationKey := CommandOf(req, now)],
       history := s.history + [h],
       revisions := s.revisions + if Reopens(s.row.state, req.target) then [RevisionOf(s.row, req, now)] else [],
       outbox := s.outbox + [EventOf(h, req.digest)])
  }

  /** The part of a call that runs under the row lock. A raised error rolls back. */
  function LockCheckCommit(s: Store, req: Request, now: int): (Store, Response) {
    match Refusal(s, req, now)
    case Some(f) => (s, Err(f))
    case None => (Committed(s, req, now), Ok(Outcome(Some(req.target), Some(req.expectedVersion + 1), false)))
  }

  /** A whole call run without interference. `now` is the start time of its transaction. */
  function Transition(s: Store, req: Request, now: int): (Store, Response) {
    match Prior(s.commands, req)
    case Some(response) => (s, response)
    case None => LockCheckCommit(s, req, now)
  }

  // ----- the other writers of the same tables -----

  datatype Write = InsertRow(id: Id, value: string) | UpdateRow(id: Id, value: string) | DeleteRow(id: Id)

  function Written(content: map<Id, string>, w: Write): map<Id, string> {
    match w
    case InsertRow(id, value) => if id in content then content else content[id := value]
    case UpdateRow(id, value) => if id in content then content[id := value] else content
    case DeleteRow(id) => content - {id}
  }

  /** Everything that can happen to the store, each taken as one atomic step. */
  datatype Event =
    | Call(req: Request, now: int)
    | Record(evidenceRow: Row)                                      // lifecycle service, INSERT only
    | SetHold(active: bool, newRevision: int, operationId: string)  // lifecycle service, its two columns
    | MaterialWrite(write: Write)                                   // any role but the executor
    | ExecutorDelete(id: Id)                                        // executor, material tables
    | ExecutorDrain(index: nat)                                     // executor, outbox

  function HoldSet(row: Workspace, active: bool, newRevision: int, operationId: string): Workspace {
    var after := row.(legalHoldActive := active, revision := newRevision);
    if newRevision >= 1 && GuardAdmits(row, after, operationId) then after else row
  }

  function Apply(s: Store, e: Event): Store {
    match e
    case Call(req, now) => Transition(s, req, now).0
    case Record(r) => s.(evidence := Inserted(s.evidence, r))
    case SetHold(active, newRevision, operationId) => s.(row := HoldSet(s.row, active, newRevision, operationId))
    case MaterialWrite(w) => if FenceAdmits(s.row.state, false) then s.(content := Written(s.content, w)) else s
    case ExecutorDelete(id) => if FenceAdmits(s.row.state, true) then s.(content := s.content - {id}) else s
    case ExecutorDrain(i) => if i < |s.outbox| then s.(outbox := s.outbox[..i] + s.outbox[i + 1..]) else s
  }

  /** The store after a run. Refused events are part of a run and change nothing. */
  function Exec(s: Store, events: seq<Event>): Store {
    if events == [] then s
    else Apply(Exec(s, events[..|events| - 1]), events[|events| - 1])
  }

  /** The call that event `i` of the run makes is accepted and committed. */
  predicate Commits(s: Store, e: Event) {
    e.Call? && Prior(s.commands, e.req).None? && Refusal(s, e.req, e.now).None?
  }
}
