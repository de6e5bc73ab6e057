/** The append-only evidence tables of one workspace, the constraints their rows
  * meet on insertion, and the questions the transition function asks of them.
  */
module LifecycleEvidence {
  import opened Wrappers
  import opened LifecycleStates

  type Id = int
  type Digest = string
  type Identity = string

  /** The outcome columns of all evidence tables; each table admits some of them.
    * `Isolated` is 'quarantined' and `Discarded` is 'destroyed'. */
  datatype Verdict =
    | Verified | Blocked | Failed | Incomplete | Isolated | Staging | Sealed | Discarded

  datatype OperationKind = Reset | Destroy
  datatype ReceiptOutcome = Deleted | AlreadyAbsent | DeleteFailed | DeleteIncomplete | ResidueDetected
  datatype CheckpointStatus = Required | Retrying | Compensating | Superseded | Resolved | CheckpointQuarantined
  datatype Integrity = Unchanged | Changed | NotChecked

  datatype PlanKey = PlanKey(plan: Id, version: int)
  datatype Item = Item(adapter: string, name: string)
  datatype Identities = Identities(requester: Identity, confirmer: Identity, executor: Identity, verifier: Identity)

  datatype FreezeManifest = FreezeManifest(
    lifecycleVersion: int, workspaceRevision: int, writerCount: int, result: Verdict)
  datatype FinalizationReport = FinalizationReport(
    lifecycleVersion: int, productionReadyClaim: bool, outcome: Verdict)
  datatype ExportOperation = ExportOperation(
    idempotencyKey: string, workspaceRevision: int,
    packageDigest: Option<Digest>, manifestDigest: Option<Digest>, receiptRef: Option<string>, state: Verdict)
  datatype ArchivePackage = ArchivePackage(exportId: Id, workspaceRevision: int, state: Verdict)
  datatype ArchiveVerification = ArchiveVerification(
    package: Id, expected: int, observed: int, missing: int, extra: int, changed: int,
    readable: bool, outcome: Verdict)
  datatype DeletionPlan = DeletionPlan(
    kind: OperationKind, lifecycleVersion: int, planDigest: Digest, items: seq<Item>)
  datatype Authorization = Authorization(
    plan: PlanKey, planDigest: Digest, who: Identities, authorizedAt: int, expiresAt: int)
  datatype Invalidation = Invalidation(authorization: Id, invalidatedAt: int)
  datatype AdapterReceipt = AdapterReceipt(
    plan: PlanKey, operation: Id, item: Item, outcome: ReceiptOutcome, before: int, after: int)
  datatype RecoveryCheckpoint = RecoveryCheckpoint(
    planDigest: Digest, failedOperation: string, status: CheckpointStatus)
  datatype Attestation = Attestation(
    plan: PlanKey, who: Identities, residueCount: int, integrity: Integrity, outcome: Verdict)

  datatype Evidence = Evidence(
    manifests: map<Id, FreezeManifest>,
    reports: map<Id, FinalizationReport>,
    exports: map<Id, ExportOperation>,
    packages: map<Id, ArchivePackage>,
    verifications: map<Id, ArchiveVerification>,
    plans: map<PlanKey, DeletionPlan>,
    authorizations: map<Id, Authorization>,
    invalidations: map<Id, Invalidation>,
    receipts: map<Id, AdapterReceipt>,
    checkpoints: map<Id, RecoveryCheckpoint>,
    attestations: map<PlanKey, Attestation>)

  const NoEvidence := Evidence(map[], map[], map[], map[], map[], map[], map[], map[], map[], map[], map[])

  /** One row offered to one of the tables. */
  datatype Row =
    | ManifestRow(id: Id, manifest: FreezeManifest)
    | ReportRow(id: Id, report: FinalizationReport)
    | ExportRow(id: Id, operation: ExportOperation)
    | PackageRow(id: Id, package: ArchivePackage)
    | VerificationRow(id: Id, verification: ArchiveVerification)
    | PlanRow(key: PlanKey, plan: DeletionPlan)
    | AuthorizationRow(id: Id, authorization: Authorization)
    | InvalidationRow(id: Id, invalidation: Invalidation)
    | ReceiptRow(id: Id, receipt: AdapterReceipt)
    | CheckpointRow(id: Id, checkpoint: RecoveryCheckpoint)
    | AttestationRow(key: PlanKey, attestation: Attestation)

  predicate Distinct(who: Identities) {
    && who.requester != who.confirmer && who.requester != who.executor && who.requester != who.verifier
    && who.confirmer != who.executor && who.confirmer != who.verifier && who.executor != who.verifier
  }

  /** CHECK constraint of `destruction_attestations`. */
  predicate AttestationChecks(a: Attestation) {
    && Distinct(a.who) && a.residueCount >= 0
    && a.outcome in {Verified, Incomplete, Failed, Isolated}
    && (a.outcome.Verified? ==> a.residueCount == 0 && a.integrity.Unchanged?)
  }

  /** CHECK constraints of `destructive_authorizations`. */
  predicate AuthorizationChecks(a: Authorization) {
    Distinct(a.who) && a.expiresAt > a.authorizedAt
  }

  /** CHECK constraints of `archive_verifications`. */
  predicate VerificationChecks(v: ArchiveVerification) {
    && v.outcome in {Verified, Failed, Isolated}
    && (v.outcome.Verified? ==>
          v.expected == v.observed && v.missing == 0 && v.extra == 0 && v.changed == 0 && v.readable)
  }

  /** CHECK constraints of `export_operations`. */
  predicate ExportChecks(x: ExportOperation) {
    && x.state in {Staging, Verified, Failed, Isolated}
    && (x.state.Verified? ==> x.packageDigest.Some? && x.manifestDigest.Some? && x.receiptRef.Some?)
  }

  /** Primary key, unique, foreign key and check constraints of each table. */
  predicate Accepts(e: Evidence, row: Row) {
    match row
    case ManifestRow(id, m) =>
      id !in e.manifests && m.writerCount == 0 && m.result in {Verified, Blocked, Failed}
    case ReportRow(id, r) =>
      id !in e.reports && !r.productionReadyClaim && r.outcome in {Verified, Blocked, Failed}
    case ExportRow(id, x) =>
      && id !in e.exports && ExportChecks(x)
      && (forall i | i in e.exports :: e.exports[i].idempotencyKey != x.idempotencyKey)
    case PackageRow(id, p) =>
      id !in e.packages && p.exportId in e.exports && p.state in {Sealed, Verified, Failed, Discarded, Isolated}
    case VerificationRow(id, v) =>
      id !in e.verifications && v.package in e.packages && VerificationChecks(v)
    case PlanRow(key, p) =>
      && key !in e.plans && key.version >= 1
      && (forall k | k in e.plans :: e.plans[k].planDigest != p.planDigest)
    case AuthorizationRow(id, a) =>
      id !in e.authorizations && a.plan in e.plans && AuthorizationChecks(a)
    case InvalidationRow(id, i) =>
      && id !in e.invalidations && i.authorization in e.authorizations
      && (forall k | k in e.invalidations :: e.invalidations[k].authorization != i.authorization)
    case ReceiptRow(id, r) =>
      && id !in e.receipts && r.plan in e.plans && r.before >= 0 && r.after >= 0
      && (forall k | k in e.receipts :: e.receipts[k].operation != r.operation || e.receipts[k].item != r.item)
    case CheckpointRow(id, c) => id !in e.checkpoints
    case AttestationRow(key, a) =>
      key !in e.attestations && key.version >= 1 && a.plan in e.plans && AttestationChecks(a)
  }

  /** INSERT: a rejected row leaves every table as it was. */
  function Inserted(e: Evidence, row: Row): (e': Evidence)
    ensures EvidenceGrows(e, e')
  {
    if !Accepts(e, row) then e else
    match row
    case ManifestRow(id, m) => e.(manifests := e.manifests[id := m])
    case ReportRow(id, r) => e.(reports := e.reports[id := r])
    case ExportRow(id, x) => e.(exports := e.exports[id := x])
    case PackageRow(id, p) => e.(packages := e.packages[id := p])
    case VerificationRow(id, v) => e.(verifications := e.verifications[id := v])
    case PlanRow(key, p) => e.(plans := e.plans[key := p])
    case AuthorizationRow(id, a) => e.(authorizations := e.authorizations[id := a])
    case InvalidationRow(id, i) => e.(invalidations := e.invalidations[id := i])
    case ReceiptRow(id, r) => e.(receipts := e.receipts[id := r])
    case CheckpointRow(id, c) => e.(checkpoints := e.checkpoints[id := c])
    case AttestationRow(key, a) => e.(attestations := e.attestations[key := a])
  }

  /** No evidence row is ever changed or lost. */
  predicate EvidenceGrows(e: Evidence, e': Evidence) {
    && SubMap(e.manifests, e'.manifests) && SubMap(e.reports, e'.reports)
    && SubMap(e.exports, e'.exports) && SubMap(e.packages, e'.packages)
    && SubMap(e.verifications, e'.verifications) && SubMap(e.plans, e'.plans)
    && SubMap(e.authorizations, e'.authorizations) && SubMap(e.invalidations, e'.invalidations)
    && SubMap(e.receipts, e'.receipts) && SubMap(e.checkpoints, e'.checkpoints)
    && SubMap(e.attestations, e'.attestations)
  }

  /** The constraints as they stand over the stored rows. */
  predicate Constraints(e: Evidence) {
    && (forall a | a in e.authorizations ::
          e.authorizations[a].plan in e.plans && AuthorizationChecks(e.authorizations[a]))
    && (forall k | k in e.attestations ::
          e.attestations[k].plan in e.plans && AttestationChecks(e.attestations[k]))
    && (forall x | x in e.exports :: ExportChecks(e.exports[x]))
    && (forall v | v in e.verifications :: VerificationChecks(e.verifications[v]))
    && (forall r | r in e.receipts :: e.receipts[r].plan in e.plans)
    && (forall r1, r2 | r1 in e.receipts && r2 in e.receipts && r1 != r2 ::
          e.receipts[r1].operation != e.receipts[r2].operation || e.receipts[r1].item != e.receipts[r2].item)
  }

  lemma {:induction false} ConstraintsKept(e: Evidence, row: Row)
    requires Constraints(e)
    ensures Constraints(Inserted(e, row))
  {
  }

  /** The tables after a sequence of inserts; a refused row changes nothing. */
  function Recorded(e: Evidence, rows: seq<Row>): Evidence {
    if rows == [] then e else Inserted(Recorded(e, rows[..|rows| - 1]), rows[|rows| - 1])
  }

  lemma {:induction false} ConstraintsRecorded(e: Evidence, rows: seq<Row>)
    requires Constraints(e)
    ensures Constraints(Recorded(e, rows))
    decreases |rows|
  {
    if rows != [] {
      ConstraintsRecorded(e, rows[..|rows| - 1]);
      ConstraintsKept(Recorded(e, rows[..|rows| - 1]), rows[|rows| - 1]);
    }
  }

  lemma {:induction false} RecordedGrows(e: Evidence, rows: seq<Row>)
    ensures EvidenceGrows(e, Recorded(e, rows))
    decreases |rows|
  {
    hide Inserted;
    if rows != [] {
      RecordedGrows(e, rows[..|rows| - 1]);
    }
  }

  // ----- the gates -----

  predicate FreezeProved(e: Evidence, version: int) {
    exists f | f in e.manifests :: e.manifests[f].lifecycleVersion == version && e.manifests[f].result.Verified?
  }

  predicate ReportProved(e: Evidence, version: int) {
    exists f | f in e.reports :: e.reports[f].lifecycleVersion == version && e.reports[f].outcome.Verified?
  }

  predicate ExportProved(e: Evidence, workspaceRevision: int) {
    exists x | x in e.exports :: e.exports[x].workspaceRevision == workspaceRevision && e.exports[x].state.Verified?
  }

  /** The archive gate names neither a version nor a revision. */
  predicate ArchiveProved(e: Evidence) {
    exists v | v in e.verifications ::
      && e.verifications[v].outcome.Verified?
      && e.verifications[v].package in e.packages
      && e.packages[e.verifications[v].package].state.Verified?
  }

  predicate Invalidated(e: Evidence, a: Id) {
    exists i | i in e.invalidations :: e.invalidations[i].authorization == a
  }

  predicate Live(e: Evidence, a: Id, now: int) {
    a in e.authorizations && e.authorizations[a].expiresAt > now && !Invalidated(e, a)
  }

  predicate PlannedAs(e: Evidence, plan: PlanKey, kind: OperationKind) {
    plan in e.plans && e.plans[plan].kind == kind
  }

  predicate AuthorizesReset(e: Evidence, a: Id, version: int) {
    && a in e.authorizations
    && var auth := e.authorizations[a];
    && PlannedAs(e, auth.plan, Reset)
    && e.plans[auth.plan].planDigest == auth.planDigest
    && e.plans[auth.plan].lifecycleVersion <= version
  }

  predicate AuthorizesDestroy(e: Evidence, a: Id) {
    a in e.authorizations && PlannedAs(e, e.authorizations[a].plan, Destroy)
  }

  predicate Good(r: AdapterReceipt) {
    r.outcome.Deleted? || r.outcome.AlreadyAbsent?
  }

  function GoodReceipts(e: Evidence, plan: PlanKey): set<Id> {
    set r | r in e.receipts && e.receipts[r].plan == plan && Good(e.receipts[r])
  }

  predicate HasBadReceipt(e: Evidence, plan: PlanKey) {
    exists r | r in e.receipts :: e.receipts[r].plan == plan && !Good(e.receipts[r])
  }

  /** A reset plan whose good receipts are as many as its items and that has no bad one. */
  predicate Purged(e: Evidence, plan: PlanKey) {
    && PlannedAs(e, plan, Reset)
    && |GoodReceipts(e, plan)| >= |e.plans[plan].items|
    && !HasBadReceipt(e, plan)
  }

  predicate Attests(e: Evidence, k: PlanKey, kind: OperationKind) {
    && k in e.attestations
    && PlannedAs(e, e.attestations[k].plan, kind)
    && e.attestations[k].outcome.Verified? && e.attestations[k].integrity.Unchanged?
  }

  /** A required checkpoint whose digest is that of some stored plan. */
  predicate Checkpointed(e: Evidence, failedOperation: string) {
    exists c, p | c in e.checkpoints && p in e.plans ::
      && e.plans[p].planDigest == e.checkpoints[c].planDigest
      && e.checkpoints[c].status.Required?
      && e.checkpoints[c].failedOperation == failedOperation
  }

  /** The evidence gate of each target state; the other targets have none. */
  predicate Gate(e: Evidence, target: State, version: int, workspaceRevision: int, now: int) {
    match target
    case Frozen => FreezeProved(e, version)
    case Finalized => ReportProved(e, version)
    case Exported => ExportProved(e, workspaceRevision)
    case Archived => ArchiveProved(e)
    case ResetAuthorized => exists a | a in e.authorizations :: Live(e, a, now)
    case Purging => exists a | a in e.authorizations :: Live(e, a, now) && AuthorizesReset(e, a, version)
    case VerifyingReset => exists p | p in e.plans :: Purged(e, p)
    case ResetVerified => exists k | k in e.attestations :: Attests(e, k, Reset)
    case Destroying => exists a | a in e.authorizations :: Live(e, a, now) && AuthorizesDestroy(e, a)
    case Destroyed => exists k | k in e.attestations :: Attests(e, k, Destroy)
    case _ => true
  }
}
