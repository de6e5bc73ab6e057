/** What the evidence tables hold: exactly the rows whose insert was accepted, and an insert is
  * accepted exactly when the tables with the new row still meet their constraints.
  */
module LifecycleInserts {
  import opened LifecycleEvidence
  import opened LifecycleTransition
  import opened LifecycleRuns

  /** The row is stored, with these values under this key. */
  predicate Stored(e: Evidence, row: Row) {
    match row
    case ManifestRow(id, m) => id in e.manifests && e.manifests[id] == m
    case ReportRow(id, r) => id in e.reports && e.reports[id] == r
    case ExportRow(id, x) => id in e.exports && e.exports[id] == x
    case PackageRow(id, p) => id in e.packages && e.packages[id] == p
    case VerificationRow(id, v) => id in e.verifications && e.verifications[id] == v
    case PlanRow(key, p) => key in e.plans && e.plans[key] == p
    case AuthorizationRow(id, a) => id in e.authorizations && e.authorizations[id] == a
    case InvalidationRow(id, i) => id in e.invalidations && e.invalidations[id] == i
    case ReceiptRow(id, r) => id in e.receipts && e.receipts[id] == r
    case CheckpointRow(id, c) => id in e.checkpoints && e.checkpoints[id] == c
    case AttestationRow(key, a) => key in e.attestations && e.attestations[key] == a
  }

  /** `e'` holds the rows of `e` and one more. */
  ghost predicate OneMore(e: Evidence, row: Row, e': Evidence) {
    !Stored(e, row) && forall r :: Stored(e', r) <==> Stored(e, r) || r == row
  }

  /** An accepted insert stores exactly this row, and a refused one nothing. */
  lemma {:induction false} InsertStores(e: Evidence, row: Row)
    ensures Accepts(e, row) ==> OneMore(e, row, Inserted(e, row))
    ensures !Accepts(e, row) ==> Inserted(e, row) == e
  {
    if Accepts(e, row) {
      forall r
        ensures Stored(Inserted(e, row), r) <==> Stored(e, r) || r == row
      {
        StoredAfter(e, row, r);
      }
    }
  }

  predicate KeyTaken(e: Evidence, row: Row) {
    match row
    case ManifestRow(id, _) => id in e.manifests
    case ReportRow(id, _) => id in e.reports
    case ExportRow(id, _) => id in e.exports
    case PackageRow(id, _) => id in e.packages
    case VerificationRow(id, _) => id in e.verifications
    case PlanRow(key, _) => key in e.plans
    case AuthorizationRow(id, _) => id in e.authorizations
    case InvalidationRow(id, _) => id in e.invalidations
    case ReceiptRow(id, _) => id in e.receipts
    case CheckpointRow(id, _) => id in e.checkpoints
    case AttestationRow(key, _) => key in e.attestations
  }

  lemma {:induction false} AcceptedKeyIsFree(e: Evidence, row: Row)
    requires Accepts(e, row)
    ensures !KeyTaken(e, row)
  {
  }

  lemma {:induction false} StoredAfterClosing(e: Evidence, row: Row, r: Row)
    requires Accepts(e, row) && (row.ManifestRow? || row.ReportRow? || row.ExportRow? || row.PackageRow?)
    ensures !Stored(e, row)
    ensures Stored(Inserted(e, row), r) <==> Stored(e, r) || r == row
  {
    hide Accepts;
    AcceptedKeyIsFree(e, row);
  }

  lemma {:induction false} StoredAfterPlanning(e: Evidence, row: Row, r: Row)
    requires Accepts(e, row) && (row.VerificationRow? || row.PlanRow? || row.AuthorizationRow? || row.InvalidationRow?)
    ensures !Stored(e, row)
    ensures Stored(Inserted(e, row), r) <==> Stored(e, r) || r == row
  {
    hide Accepts;
    AcceptedKeyIsFree(e, row);
  }

  lemma {:induction false} StoredAfterDeleting(e: Evidence, row: Row, r: Row)
    requires Accepts(e, row) && (row.ReceiptRow? || row.CheckpointRow? || row.AttestationRow?)
    ensures !Stored(e, row)
    ensures Stored(Inserted(e, row), r) <==> Stored(e, r) || r == row
  {
    hide Accepts;
    AcceptedKeyIsFree(e, row);
  }

  lemma {:induction false} StoredAfter(e: Evidence, row: Row, r: Row)
    requires Accepts(e, row)
    ensures !Stored(e, row)
    ensures Stored(Inserted(e, row), r) <==> Stored(e, r) || r == row
  {
    hide Accepts, Inserted, Stored;
    match row
    case ManifestRow(_, _) | ReportRow(_, _) | ExportRow(_, _) | PackageRow(_, _) => StoredAfterClosing(e, row, r);
    case ReceiptRow(_, _) | CheckpointRow(_, _) | AttestationRow(_, _) => StoredAfterDeleting(e, row, r);
    case _ => StoredAfterPlanning(e, row, r);
  }

  /** In every run the tables hold exactly the rows of the accepted inserts. */
  lemma {:induction false} TablesHoldWhatWasAccepted(creation: Creation, events: seq<Event>, row: Row)
    ensures Stored(Exec(Initial(creation), events).evidence, row) <==>
              exists i :: AcceptedAt(creation, events, i, row)
    decreases |events|
  {
    hide Apply, Accepts, Inserted, Stored;
    if events == [] {
      assert !Stored(NoEvidence, row) by { NothingStored(row); }
    } else {
      var n := |events| - 1;
      var before := Exec(Initial(creation), events[..n]).evidence;
      TablesHoldWhatWasAccepted(creation, events[..n], row);
      OnlyInsertsRecord(Exec(Initial(creation), events[..n]), events[n]);
      if events[n].Record? {
        InsertStores(before, events[n].evidenceRow);
      }
      if i :| AcceptedAt(creation, events[..n], i, row) {
        assert events[..n][..i] == events[..i];
        assert AcceptedAt(creation, events, i, row);
      }
      if i :| AcceptedAt(creation, events, i, row) && i < n {
        assert events[..n][..i] == events[..i];
        assert AcceptedAt(creation, events[..n], i, row);
      }
      assert AcceptedAt(creation, events, n, row) <==> events[n] == Record(row) && Accepts(before, row);
    }
  }

  predicate AcceptedAt(creation: Creation, events: seq<Event>, i: int, row: Row) {
    && 0 <= i < |events| && events[i] == Record(row)
    && Accepts(Exec(Initial(creation), events[..i]).evidence, row)
  }

  lemma {:induction false} NothingStored(row: Row)
    ensures !Stored(NoEvidence, row)
  {
  }

  // ----- accepted exactly when the tables stay lawful -----

  predicate LawfulClosing(e: Evidence) {
    && (forall f | f in e.manifests ::
          e.manifests[f].writerCount == 0 && e.manifests[f].result in {Verified, Blocked, Failed})
    && (forall f | f in e.reports ::
          !e.reports[f].productionReadyClaim && e.reports[f].outcome in {Verified, Blocked, Failed})
  }

  predicate LawfulExports(e: Evidence) {
    && (forall x | x in e.exports ::
          && e.exports[x].state in {Staging, Verified, Failed, Isolated}
          && (e.exports[x].state == Verified ==>
                && e.exports[x].packageDigest.Some? && e.exports[x].manifestDigest.Some?
                && e.exports[x].receiptRef.Some?))
    && (forall x, y | x in e.exports && y in e.exports && x != y ::
          e.exports[x].idempotencyKey != e.exports[y].idempotencyKey)
  }

  predicate LawfulArchive(e: Evidence) {
    && (forall p | p in e.packages ::
          && e.packages[p].exportId in e.exports
          && e.packages[p].state in {Sealed, Verified, Failed, Discarded, Isolated})
    && (forall v | v in e.verifications ::
          var check := e.verifications[v];
          && check.package in e.packages && check.outcome in {Verified, Failed, Isolated}
          && (check.outcome == Verified ==>
                && check.expected == check.observed && check.readable
                && check.missing == 0 && check.extra == 0 && check.changed == 0))
  }

  predicate LawfulPlans(e: Evidence) {
    && (forall p | p in e.plans :: p.version >= 1)
    && (forall p, q | p in e.plans && q in e.plans && p != q :: e.plans[p].planDigest != e.plans[q].planDigest)
  }

  predicate FourPeople(who: Identities) {
    |{who.requester, who.confirmer, who.executor, who.verifier}| == 4
  }

  predicate LawfulAuthorizations(e: Evidence) {
    && (forall a | a in e.authorizations ::
          && e.authorizations[a].plan in e.plans && FourPeople(e.authorizations[a].who)
          && e.authorizations[a].authorizedAt < e.authorizations[a].expiresAt)
    && (forall i | i in e.invalidations :: e.invalidations[i].authorization in e.authorizations)
    && (forall i, j | i in e.invalidations && j in e.invalidations && i != j ::
          e.invalidations[i].authorization != e.invalidations[j].authorization)
  }

  predicate LawfulReceipts(e: Evidence) {
    && (forall r | r in e.receipts ::
          e.receipts[r].plan in e.plans && e.receipts[r].before >= 0 && e.receipts[r].after >= 0)
    && (forall r, q | r in e.receipts && q in e.receipts && r != q ::
          (e.receipts[r].operation, e.receipts[r].item) != (e.receipts[q].operation, e.receipts[q].item))
  }

  predicate LawfulAttestations(e: Evidence) {
    forall k | k in e.attestations ::
      var a := e.attestations[k];
      && k.version >= 1 && a.plan in e.plans && FourPeople(a.who)
      && a.residueCount >= 0 && a.outcome in {Verified, Incomplete, Failed, Isolated}
      && (a.outcome == Verified ==> a.residueCount == 0 && a.integrity == Unchanged)
  }

  /** The CHECK, UNIQUE and FOREIGN KEY constraints, over all the rows of all the tables. */
  predicate Lawful(e: Evidence) {
    && LawfulClosing(e) && LawfulExports(e) && LawfulArchive(e) && LawfulPlans(e)
    && LawfulAuthorizations(e) && LawfulReceipts(e) && LawfulAttestations(e)
  }

  lemma {:induction false} FourPeopleDiffer(who: Identities)
    ensures FourPeople(who) <==> Distinct(who)
  {
    var three := {who.requester, who.confirmer, who.executor};
    assert {who.requester, who.confirmer, who.executor, who.verifier} == three + {who.verifier};
    assert three == {who.requester, who.confirmer} + {who.executor};
  }

  lemma {:induction false} ClosingStayLawful(e: Evidence, row: Row)
    requires LawfulClosing(e) && Accepts(e, row)
    ensures LawfulClosing(Inserted(e, row))
  {
  }

  lemma {:induction false} ExportsStayLawful(e: Evidence, row: Row)
    requires LawfulExports(e) && Accepts(e, row)
    ensures LawfulExports(Inserted(e, row))
  {
  }

  lemma {:induction false} ArchiveStayLawful(e: Evidence, row: Row)
    requires LawfulArchive(e) && Accepts(e, row)
    ensures LawfulArchive(Inserted(e, row))
  {
  }

  lemma {:induction false} PlansStayLawful(e: Evidence, row: Row)
    requires LawfulPlans(e) && Accepts(e, row)
    ensures LawfulPlans(Inserted(e, row))
  {
  }

  lemma {:induction false} AuthorizationsStayLawful(e: Evidence, row: Row)
    requires LawfulAuthorizations(e) && Accepts(e, row)
    ensures LawfulAuthorizations(Inserted(e, row))
  {
    hide FourPeople, Distinct;
    if row.AuthorizationRow? {
      FourPeopleDiffer(row.authorization.who);
    }
  }

  lemma {:induction false} ReceiptsStayLawful(e: Evidence, row: Row)
    requires LawfulReceipts(e) && Accepts(e, row)
    ensures LawfulReceipts(Inserted(e, row))
  {
  }

  lemma {:induction false} AttestationsStayLawful(e: Evidence, row: Row)
    requires LawfulAttestations(e) && Accepts(e, row)
    ensures LawfulAttestations(Inserted(e, row))
  {
    hide FourPeople, Distinct;
    if row.AttestationRow? {
      FourPeopleDiffer(row.attestation.who);
    }
  }

  lemma {:induction false} StaysLawful(e: Evidence, row: Row)
    requires Lawful(e) && Accepts(e, row)
    ensures Lawful(Inserted(e, row))
  {
    hide Accepts, Inserted, LawfulClosing, LawfulExports, LawfulArchive;
    hide LawfulPlans, LawfulAuthorizations, LawfulReceipts, LawfulAttestations;
    ClosingStayLawful(e, row);
    ExportsStayLawful(e, row);
    ArchiveStayLawful(e, row);
    PlansStayLawful(e, row);
    AuthorizationsStayLawful(e, row);
    ReceiptsStayLawful(e, row);
    AttestationsStayLawful(e, row);
  }

  /** An insert is accepted exactly when the tables with just this row more are lawful. */
  lemma {:induction false} AcceptedIffLawful(e: Evidence, row: Row)
    requires Lawful(e)
    ensures Accepts(e, row) <==> exists e' :: OneMore(e, row, e') && Lawful(e')
  {
    hide Accepts, Lawful, OneMore, Inserted;
    if Accepts(e, row) {
      InsertStores(e, row);
      StaysLawful(e, row);
    }
    if e' :| OneMore(e, row, e') && Lawful(e') {
      LawfulIsAccepted(e, row, e');
    }
  }

  lemma {:induction false} LawfulIsAccepted(e: Evidence, row: Row, e': Evidence)
    requires OneMore(e, row, e') && Lawful(e')
    ensures Accepts(e, row)
  {
    hide Accepts, OneMore, Stored, LawfulClosing, LawfulExports, LawfulArchive;
    hide LawfulPlans, LawfulAuthorizations, LawfulReceipts, LawfulAttestations;
    match row
    case ManifestRow(id, m) => ManifestAccepted(e, id, m, e');
    case ReportRow(id, r) => ReportAccepted(e, id, r, e');
    case ExportRow(id, x) => ExportAccepted(e, id, x, e');
    case PackageRow(id, p) => PackageAccepted(e, id, p, e');
    case VerificationRow(id, v) => VerificationAccepted(e, id, v, e');
    case PlanRow(key, p) => PlanAccepted(e, key, p, e');
    case AuthorizationRow(id, a) => AuthorizationAccepted(e, id, a, e');
    case InvalidationRow(id, i) => InvalidationAccepted(e, id, i, e');
    case ReceiptRow(id, r) => ReceiptAccepted(e, id, r, e');
    case CheckpointRow(id, c) => CheckpointAccepted(e, id, c, e');
    case AttestationRow(key, a) => AttestationAccepted(e, key, a, e');
  }

  /** The row that is stored under the key of this one. */
  function Occupant(e: Evidence, row: Row): (r: Row)
    requires KeyTaken(e, row)
    ensures Stored(e, r)
  {
    match row
    case ManifestRow(id, _) => ManifestRow(id, e.manifests[id])
    case ReportRow(id, _) => ReportRow(id, e.reports[id])
    case ExportRow(id, _) => ExportRow(id, e.exports[id])
    case PackageRow(id, _) => PackageRow(id, e.packages[id])
    case VerificationRow(id, _) => VerificationRow(id, e.verifications[id])
    case PlanRow(key, _) => PlanRow(key, e.plans[key])
    case AuthorizationRow(id, _) => AuthorizationRow(id, e.authorizations[id])
    case InvalidationRow(id, _) => InvalidationRow(id, e.invalidations[id])
    case ReceiptRow(id, _) => ReceiptRow(id, e.receipts[id])
    case CheckpointRow(id, _) => CheckpointRow(id, e.checkpoints[id])
    case AttestationRow(key, _) => AttestationRow(key, e.attestations[key])
  }

  /** Tables hold one row under a key. */
  lemma {:induction false} OneRowPerKey(e: Evidence, row: Row, e': Evidence)
    requires KeyTaken(e, row) && Stored(e', row) && Stored(e', Occupant(e, row))
    ensures Stored(e, row)
  {
  }

  lemma {:induction false} KeyWasFree(e: Evidence, row: Row, e': Evidence)
    requires OneMore(e, row, e')
    ensures !KeyTaken(e, row)
  {
    hide Stored, KeyTaken, Occupant;
    assert Stored(e', row);
    if KeyTaken(e, row) {
      OneRowPerKey(e, row, e');
    }
  }

  lemma {:induction false} ManifestAccepted(e: Evidence, id: Id, m: FreezeManifest, e': Evidence)
    requires OneMore(e, ManifestRow(id, m), e') && LawfulClosing(e')
    ensures Accepts(e, ManifestRow(id, m))
  {
    assert Stored(e', ManifestRow(id, m));
    KeyWasFree(e, ManifestRow(id, m), e');
  }

  lemma {:induction false} ReportAccepted(e: Evidence, id: Id, r: FinalizationReport, e': Evidence)
    requires OneMore(e, ReportRow(id, r), e') && LawfulClosing(e')
    ensures Accepts(e, ReportRow(id, r))
  {
    assert Stored(e', ReportRow(id, r));
    KeyWasFree(e, ReportRow(id, r), e');
  }

  lemma {:induction false} ExportAccepted(e: Evidence, id: Id, x: ExportOperation, e': Evidence)
    requires OneMore(e, ExportRow(id, x), e') && LawfulExports(e')
    ensures Accepts(e, ExportRow(id, x))
  {
    assert Stored(e', ExportRow(id, x));
    KeyWasFree(e, ExportRow(id, x), e');
    forall i | i in e.exports
      ensures i != id && e.exports[i].idempotencyKey != x.idempotencyKey
    {
      assert Stored(e', ExportRow(i, e.exports[i]));
    }
  }

  lemma {:induction false} PackageAccepted(e: Evidence, id: Id, p: ArchivePackage, e': Evidence)
    requires OneMore(e, PackageRow(id, p), e') && LawfulArchive(e')
    ensures Accepts(e, PackageRow(id, p))
  {
    assert Stored(e', PackageRow(id, p));
    KeyWasFree(e, PackageRow(id, p), e');
    assert Stored(e', ExportRow(p.exportId, e'.exports[p.exportId]));
  }

  lemma {:induction false} VerificationAccepted(e: Evidence, id: Id, v: ArchiveVerification, e': Evidence)
    requires OneMore(e, VerificationRow(id, v), e') && LawfulArchive(e')
    ensures Accepts(e, VerificationRow(id, v))
  {
    assert Stored(e', VerificationRow(id, v));
    KeyWasFree(e, VerificationRow(id, v), e');
    assert Stored(e', PackageRow(v.package, e'.packages[v.package]));
  }

  lemma {:induction false} PlanAccepted(e: Evidence, key: PlanKey, p: DeletionPlan, e': Evidence)
    requires OneMore(e, PlanRow(key, p), e') && LawfulPlans(e')
    ensures Accepts(e, PlanRow(key, p))
  {
    assert Stored(e', PlanRow(key, p));
    KeyWasFree(e, PlanRow(key, p), e');
    forall k | k in e.plans
      ensures k != key && e.plans[k].planDigest != p.planDigest
    {
      assert Stored(e', PlanRow(k, e.plans[k]));
    }
  }

  /** A plan that the larger tables hold is in the smaller ones, unless it is the new row. */
  lemma {:induction false} PlanWasThere(e: Evidence, row: Row, e': Evidence, plan: PlanKey)
    requires OneMore(e, row, e') && !row.PlanRow? && plan in e'.plans
    ensures plan in e.plans
  {
    assert Stored(e', PlanRow(plan, e'.plans[plan]));
  }

  lemma {:induction false} AuthorizationAccepted(e: Evidence, id: Id, a: Authorization, e': Evidence)
    requires OneMore(e, AuthorizationRow(id, a), e') && LawfulAuthorizations(e')
    ensures Accepts(e, AuthorizationRow(id, a))
  {
    assert Stored(e', AuthorizationRow(id, a));
    KeyWasFree(e, AuthorizationRow(id, a), e');
    PlanWasThere(e, AuthorizationRow(id, a), e', a.plan);
    FourPeopleDiffer(a.who);
  }

  lemma {:induction false} InvalidationAccepted(e: Evidence, id: Id, i: Invalidation, e': Evidence)
    requires OneMore(e, InvalidationRow(id, i), e') && LawfulAuthorizations(e')
    ensures Accepts(e, InvalidationRow(id, i))
  {
    assert Stored(e', InvalidationRow(id, i));
    KeyWasFree(e, InvalidationRow(id, i), e');
    assert Stored(e', AuthorizationRow(i.authorization, e'.authorizations[i.authorization]));
    forall k | k in e.invalidations
      ensures k != id && e.invalidations[k].authorization != i.authorization
    {
      assert Stored(e', InvalidationRow(k, e.invalidations[k]));
    }
  }

  lemma {:induction false} ReceiptAccepted(e: Evidence, id: Id, r: AdapterReceipt, e': Evidence)
    requires OneMore(e, ReceiptRow(id, r), e') && LawfulReceipts(e')
    ensures Accepts(e, ReceiptRow(id, r))
  {
    assert Stored(e', ReceiptRow(id, r));
    KeyWasFree(e, ReceiptRow(id, r), e');
    PlanWasThere(e, ReceiptRow(id, r), e', r.plan);
    forall k | k in e.receipts
      ensures k != id && (e.receipts[k].operation != r.operation || e.receipts[k].item != r.item)
    {
      assert Stored(e', ReceiptRow(k, e.receipts[k]));
    }
  }

  lemma {:induction false} CheckpointAccepted(e: Evidence, id: Id, c: RecoveryCheckpoint, e': Evidence)
    requires OneMore(e, CheckpointRow(id, c), e')
    ensures Accepts(e, CheckpointRow(id, c))
  {
    assert Stored(e', CheckpointRow(id, c));
    KeyWasFree(e, CheckpointRow(id, c), e');
  }

  lemma {:induction false} AttestationAccepted(e: Evidence, key: PlanKey, a: Attestation, e': Evidence)
    requires OneMore(e, AttestationRow(key, a), e') && LawfulAttestations(e')
    ensures Accepts(e, AttestationRow(key, a))
  {
    assert Stored(e', AttestationRow(key, a));
    KeyWasFree(e, AttestationRow(key, a), e');
    PlanWasThere(e, AttestationRow(key, a), e', a.plan);
    FourPeopleDiffer(a.who);
  }

  /** So in every reachable workspace an insert is accepted exactly when this holds of it. */
  lemma {:induction false} AlwaysLawful(creation: Creation, events: seq<Event>)
    ensures Lawful(Exec(Initial(creation), events).evidence)
    decreases |events|
  {
    hide Apply, Accepts, Inserted, Lawful;
    if events == [] {
      assert Lawful(NoEvidence) by { NothingIsLawful(); }
    } else {
      var n := |events| - 1;
      var before := Exec(Initial(creation), events[..n]);
      AlwaysLawful(creation, events[..n]);
      OnlyInsertsRecord(before, events[n]);
      if events[n].Record? {
        InsertStores(before.evidence, events[n].evidenceRow);
        if Accepts(before.evidence, events[n].evidenceRow) {
          StaysLawful(before.evidence, events[n].evidenceRow);
        }
      }
    }
  }

  lemma {:induction false} NothingIsLawful()
    ensures Lawful(NoEvidence)
  {
  }
}
