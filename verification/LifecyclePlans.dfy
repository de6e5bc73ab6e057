/** Which plan opens VERIFYING_RESET? Neither the plan that PURGING was authorized for, nor one
  * whose items are covered, unless the evidence leaves no other.
  */
module LifecyclePlans {
  import opened Wrappers
  import opened LifecycleStates
  import opened LifecycleEvidence
  import opened LifecycleTransition
  import opened LifecycleRuns
  import opened LifecycleRoutes
  import opened LifecycleCoverage

  // ----- receipts one can always add -----

  ghost function FreshReceipt(e: Evidence, plan: PlanKey, outcome: ReceiptOutcome): Row {
    var operations := set r | r in e.receipts :: e.receipts[r].operation;
    ReceiptRow(Above(e.receipts.Keys),
               AdapterReceipt(plan, Above(operations), Item("postgres.workspace", "x"), outcome, 1, 0))
  }

  lemma {:induction false} ReceiptStored(e: Evidence, plan: PlanKey, outcome: ReceiptOutcome)
    requires plan in e.plans
    ensures var row := FreshReceipt(e, plan, outcome);
            && row.id !in e.receipts
            && Inserted(e, row) == e.(receipts := e.receipts[row.id := row.receipt])
  {
    var operations := set r | r in e.receipts :: e.receipts[r].operation;
    assert forall r | r in e.receipts :: e.receipts[r].operation in operations;
  }

  predicate NoPlans(rows: seq<Row>) {
    forall i | 0 <= i < |rows| :: !rows[i].PlanRow?
  }

  /** Good receipts can be added up to any number, and no other plan notices. */
  lemma {:induction false} GoodReceiptsAdded(e: Evidence, plan: PlanKey, n: nat) returns (rows: seq<Row>)
    requires plan in e.plans
    ensures NoPlans(rows)
    ensures var e' := Recorded(e, rows);
            && e'.plans == e.plans && |GoodReceipts(e', plan)| >= n
            && forall p :: HasBadReceipt(e', p) <==> HasBadReceipt(e, p)
  {
    if n == 0 {
      rows := [];
    } else {
      rows := GoodReceiptsAdded(e, plan, n - 1);
      var e1 := Recorded(e, rows);
      var row := FreshReceipt(e1, plan, Deleted);
      ReceiptStored(e1, plan, Deleted);
      OneMoreGood(e1, plan, row);
      RecordedSnoc(e, rows, row);
      rows := rows + [row];
    }
  }

  lemma {:induction false} OneMoreGood(e: Evidence, plan: PlanKey, row: Row)
    requires row.ReceiptRow? && row.id !in e.receipts && row.receipt.plan == plan && Good(row.receipt)
    ensures var e' := e.(receipts := e.receipts[row.id := row.receipt]);
            && |GoodReceipts(e', plan)| == |GoodReceipts(e, plan)| + 1
            && forall p :: HasBadReceipt(e', p) <==> HasBadReceipt(e, p)
  {
    hide HasBadReceipt;
    GoodReceiptsAfter(e, plan, row);
    forall p
      ensures HasBadReceipt(e.(receipts := e.receipts[row.id := row.receipt]), p) <==> HasBadReceipt(e, p)
    {
      BadReceiptsAfter(e, row, p);
    }
  }

  lemma {:induction false} GoodReceiptsAfter(e: Evidence, plan: PlanKey, row: Row)
    requires row.ReceiptRow? && row.id !in e.receipts && row.receipt.plan == plan && Good(row.receipt)
    ensures var e' := e.(receipts := e.receipts[row.id := row.receipt]);
            GoodReceipts(e', plan) == GoodReceipts(e, plan) + {row.id}
  {
  }

  lemma {:induction false} BadReceiptsAfter(e: Evidence, row: Row, p: PlanKey)
    requires row.ReceiptRow? && row.id !in e.receipts
    ensures var e' := e.(receipts := e.receipts[row.id := row.receipt]);
            HasBadReceipt(e', p) <==> HasBadReceipt(e, p) || (row.receipt.plan == p && !Good(row.receipt))
  {
    var e' := e.(receipts := e.receipts[row.id := row.receipt]);
    assert e'.receipts[row.id] == row.receipt;
    if r :| r in e.receipts && e.receipts[r].plan == p && !Good(e.receipts[r]) {
      assert r in e'.receipts && e'.receipts[r] == e.receipts[r];
    }
  }

  lemma {:induction false} BadReceiptAdded(e: Evidence, plan: PlanKey) returns (row: Row)
    requires plan in e.plans
    ensures row.ReceiptRow?
    ensures var e' := Inserted(e, row);
            && e'.plans == e.plans && HasBadReceipt(e', plan)
            && forall p | p != plan :: HasBadReceipt(e', p) <==> HasBadReceipt(e, p)
  {
    row := FreshReceipt(e, plan, DeleteFailed);
    ReceiptStored(e, plan, DeleteFailed);
    forall p
      ensures HasBadReceipt(Inserted(e, row), p) <==> HasBadReceipt(e, p) || p == plan
    {
      BadReceiptsAfter(e, row, p);
    }
  }

  // ----- the plan that opens the gate -----

  predicate VerifyingGate(e: Evidence) {
    exists p | p in e.plans :: Purged(e, p)
  }

  /** Every stored reset plan but `plan` has a bad receipt. */
  predicate OthersSpoiled(e: Evidence, plan: PlanKey) {
    forall q | q in e.plans && q != plan && e.plans[q].kind.Reset? :: HasBadReceipt(e, q)
  }

  lemma {:induction false} PlansUntouched(e: Evidence, rows: seq<Row>)
    requires NoPlans(rows)
    ensures Recorded(e, rows).plans == e.plans
    decreases |rows|
  {
    hide Inserted;
    if rows != [] {
      var n := |rows| - 1;
      assert NoPlans(rows[..n]) && !rows[n].PlanRow?;
      PlansUntouched(e, rows[..n]);
      OnlyPlanRowsAddPlans(Recorded(e, rows[..n]), rows[n]);
    }
  }

  lemma {:induction false} OnlyPlanRowsAddPlans(e: Evidence, row: Row)
    requires !row.PlanRow?
    ensures Inserted(e, row).plans == e.plans
  {
    hide Accepts;
  }

  lemma {:induction false} OnlyPlanLeft(e: Evidence, plan: PlanKey, rows: seq<Row>)
    requires OthersSpoiled(e, plan) && NoPlans(rows) && VerifyingGate(Recorded(e, rows))
    ensures Purged(Recorded(e, rows), plan)
  {
    var e' := Recorded(e, rows);
    RecordedGrows(e, rows);
    PlansUntouched(e, rows);
    var q :| q in e'.plans && Purged(e', q);
  }

  /** Another unspoiled reset plan can be brought to open the gate, the first being spoiled. */
  lemma {:induction false} AnotherPlanOpens(e: Evidence, plan: PlanKey, other: PlanKey) returns (rows: seq<Row>)
    requires plan in e.plans && other in e.plans && other != plan
    requires e.plans[other].kind.Reset? && !HasBadReceipt(e, other)
    ensures NoPlans(rows)
    ensures Purged(Recorded(e, rows), other) && HasBadReceipt(Recorded(e, rows), plan)
  {
    hide HasBadReceipt, GoodReceipts, Inserted;
    var bad := BadReceiptAdded(e, plan);
    var more := GoodReceiptsAdded(Inserted(e, bad), other, |e.plans[other].items|);
    rows := [bad] + more;
    assert Recorded(e, []) == e;
    RecordedSnoc(e, [], bad);
    assert [] + [bad] == [bad];
    RecordedConcat(e, [bad], more);
  }

  lemma {:induction false} RecordedConcat(e: Evidence, a: seq<Row>, b: seq<Row>)
    ensures Recorded(e, a + b) == Recorded(Recorded(e, a), b)
    decreases |b|
  {
    hide Inserted;
    if b == [] {
      assert a + b == a;
    } else {
      var n := |b| - 1;
      RecordedConcat(e, a, b[..n]);
      assert a + b == (a + b[..n]) + [b[n]];
      RecordedSnoc(e, a + b[..n], b[n]);
    }
  }

  // ----- over runs -----

  /** Event `e` in store `s` enters VERIFYING_RESET. */
  predicate EntersVerifying(s: Store, e: Event) {
    Commits(s, e) && e.req.target.VerifyingReset?
  }

  /** However a purging workspace continues, as long as no plan is added, VERIFYING_RESET is
    * entered only with this plan purged. */
  ghost predicate PlansAgree(s: Store, plan: PlanKey) {
    forall more: seq<Event>, e: Event ::
      NoPlans(RowsOf(more)) && EntersVerifying(Exec(s, more), e) ==> Purged(Exec(s, more).evidence, plan)
  }

  lemma {:induction false} EnteringShowsGate(s: Store, e: Event)
    requires EntersVerifying(s, e)
    ensures VerifyingGate(s.evidence)
  {
  }

  lemma {:induction false} VerifyingPassable(e: Evidence, now: int)
    requires VerifyingGate(e)
    ensures Passable(e, Purging, VerifyingReset, now)
  {
    assert Gate(e, VerifyingReset, 1, 1, now);
  }

  /** From PURGING the call to VERIFYING_RESET commits as soon as the gate is open. */
  lemma {:induction false} PurgingMayVerify(s: Store, now: int)
    requires Sound(s) && s.row.state.Purging? && VerifyingGate(s.evidence)
    ensures EntersVerifying(s, StepTo(s, VerifyingReset, now))
  {
    hide Sound, Commits, Arrived;
    VerifyingPassable(s.evidence, now);
    hide Passable, VerifyingGate;
    StepCommits(s, VerifyingReset, now);
  }

  lemma {:induction false} RowsOfRecords(rows: seq<Row>)
    ensures RowsOf(Records(rows)) == rows
  {
    if rows != [] {
      var n := |rows| - 1;
      RowsOfRecords(rows[..n]);
      assert Records(rows)[..n] == Records(rows[..n]);
    }
  }

  /** Nothing ties the plan that opens VERIFYING_RESET to the plan that PURGING was authorized
    * for. In a purging workspace to which no plan is added they agree exactly when every other
    * reset plan is already spoiled. */
  lemma {:induction false} PlansAgreeIff(creation: Creation, events: seq<Event>, plan: PlanKey)
    requires Exec(Initial(creation), events).row.state.Purging?
    requires plan in Exec(Initial(creation), events).evidence.plans
    ensures var s := Exec(Initial(creation), events);
            PlansAgree(s, plan) <==> OthersSpoiled(s.evidence, plan)
  {
    var s := Exec(Initial(creation), events);
    if OthersSpoiled(s.evidence, plan) {
      forall more: seq<Event>, e: Event | NoPlans(RowsOf(more)) && EntersVerifying(Exec(s, more), e)
        ensures Purged(Exec(s, more).evidence, plan)
      {
        RunRecords(s, more);
        EnteringShowsGate(Exec(s, more), e);
        OnlyPlanLeft(s.evidence, plan, RowsOf(more));
      }
    } else {
      var other :| other in s.evidence.plans && other != plan
                   && s.evidence.plans[other].kind.Reset? && !HasBadReceipt(s.evidence, other);
      var rows := AnotherPlanOpens(s.evidence, plan, other);
      VerifiedByRows(creation, events, rows, 0);
      RowsOfRecords(rows);
      assert !Purged(Exec(s, Records(rows)).evidence, plan);
      assert !PlansAgree(s, plan);
    }
  }

  /** In a purging workspace, rows that open the gate let the next call enter VERIFYING_RESET. */
  lemma {:induction false} VerifiedByRows(creation: Creation, events: seq<Event>, rows: seq<Row>, now: int)
    requires Exec(Initial(creation), events).row.state.Purging?
    requires VerifyingGate(Recorded(Exec(Initial(creation), events).evidence, rows))
    ensures var s := Exec(Initial(creation), events);
            && Exec(s, Records(rows)) == s.(evidence := Recorded(s.evidence, rows))
            && EntersVerifying(Exec(s, Records(rows)), StepTo(Exec(s, Records(rows)), VerifyingReset, now))
  {
    hide Recorded;
    var s := Exec(Initial(creation), events);
    RecordsRun(s, rows);
    assert Sound(Exec(s, Records(rows))) by {
      Reachable(creation, events);
      SoundRun(s, Records(rows));
    }
    PurgingMayVerify(Exec(s, Records(rows)), now);
  }

  /** With plans added the two need never agree: whatever is stored, a fresh plan without items
    * opens VERIFYING_RESET without a single good receipt, while the other is spoiled. */
  lemma {:induction false} EmptyPlanOpens(creation: Creation, events: seq<Event>, plan: PlanKey, now: int)
    returns (rows: seq<Row>, key: PlanKey)
    requires Exec(Initial(creation), events).row.state.Purging?
    requires plan in Exec(Initial(creation), events).evidence.plans
    ensures var s := Exec(Initial(creation), events);
            var s' := Exec(s, Records(rows));
            && EntersVerifying(s', StepTo(s', VerifyingReset, now))
            && key != plan && Purged(s'.evidence, key) && GoodReceipts(s'.evidence, key) == {}
            && !Purged(s'.evidence, plan)
  {
    var s := Exec(Initial(creation), events);
    assert Constraints(s.evidence) by { Reachable(creation, events); }
    rows, key := SpoilAndReplace(s.evidence, plan);
    VerifiedByRows(creation, events, rows, now);
  }

  lemma {:induction false} SpoilAndReplace(e: Evidence, plan: PlanKey) returns (rows: seq<Row>, key: PlanKey)
    requires Constraints(e) && plan in e.plans
    ensures var e' := Recorded(e, rows);
            key != plan && key in e'.plans && Purged(e', key) && GoodReceipts(e', key) == {} && !Purged(e', plan)
  {
    var bad := BadReceiptAdded(e, plan);
    var e1 := Inserted(e, bad);
    ConstraintsKept(e, bad);
    key := FreshPlan(e1);
    var empty := PlanRow(key, EmptyPlan(Reset, FreshDigest(e1)));
    PlanAccepted(e1, Reset);
    rows := [bad, empty];
    assert Recorded(e, []) == e;
    RecordedSnoc(e, [], bad);
    RecordedSnoc(e, [bad], empty);
    assert [] + [bad] == [bad] && [bad] + [empty] == rows;
    var e' := Inserted(e1, empty);
    assert forall r | r in e'.receipts :: e'.receipts[r].plan != key;
  }

  // ----- coverage over runs -----

  /** Whenever a workspace enters VERIFYING_RESET, a plan like this that counts as purged is covered. */
  ghost predicate ResetForcesCoverage(plan: DeletionPlan, k: nat) {
    forall creation: Creation, events: seq<Event>, e: Event, key: PlanKey ::
      EntersVerifying(Exec(Initial(creation), events), e) ==>
        !Escapes(Exec(Initial(creation), events).evidence, key, plan, k)
  }

  lemma {:induction false} EscapesKept(e: Evidence, e': Evidence, key: PlanKey, plan: DeletionPlan, k: nat)
    requires Escapes(e, key, plan, k) && SubMap(e.plans, e'.plans) && e'.receipts == e.receipts
    ensures Escapes(e', key, plan, k)
  {
    assert GoodReceipts(e', key) == GoodReceipts(e, key);
    assert Operations(e', key) == Operations(e, key);
  }

  const TO_PURGING: seq<State> := [Active, Freezing, RecoveryRequired, Purging]

  lemma {:induction false} ToPurgingIsRoad(e: Evidence, now: int)
    requires Prepared(e, Reset, now)
    ensures Road(e, Provisioning, TO_PURGING, now)
  {
    assert [Purging] + [] == [Purging];
    assert [RecoveryRequired] + [Purging] == [RecoveryRequired, Purging];
    assert [Freezing] + [RecoveryRequired, Purging] == [Freezing, RecoveryRequired, Purging];
    assert [Active] + [Freezing, RecoveryRequired, Purging] == TO_PURGING;
    RoadOnward(e, RecoveryRequired, Purging, [], now);
    RoadOnward(e, Freezing, RecoveryRequired, [Purging], now);
    RoadOnward(e, Active, Freezing, [RecoveryRequired, Purging], now);
    RoadOnward(e, Provisioning, Active, [Freezing, RecoveryRequired, Purging], now);
  }

  /** Evidence that escapes is that of a workspace about to enter VERIFYING_RESET. */
  lemma {:induction false} EscapeIsReached(
      creation: Creation, rows: seq<Row>, key: PlanKey, plan: DeletionPlan, k: nat, now: int)
    returns (events: seq<Event>)
    requires Escapes(Recorded(NoEvidence, rows), key, plan, k)
    ensures var s := Exec(Initial(creation), events);
            && s.row.state.Purging? && Escapes(s.evidence, key, plan, k)
            && EntersVerifying(s, StepTo(s, VerifyingReset, now))
  {
    hide Escapes, Recorded, WithDossier, Preparing, Road, Prepared, EntersVerifying, StepTo;
    var filled := Exec(Initial(creation), Records(rows));
    RecordsRun(Initial(creation), rows);
    assert Sound(filled) by { Reachable(creation, Records(rows)); }
    DossierPrepares(filled.evidence, Reset, now);
    ToPurgingIsRoad(WithDossier(filled.evidence, Reset, now), now);
    PreparedWalk(filled, Reset, TO_PURGING, now);
    events := Records(rows) + Preparing(filled, Reset, TO_PURGING, now);
    ExecConcat(Initial(creation), Records(rows), Preparing(filled, Reset, TO_PURGING, now));
    var s := Exec(Initial(creation), events);
    DossierAdds(filled.evidence, now);
    EscapesKept(filled.evidence, s.evidence, key, plan, k);
    assert VerifyingGate(s.evidence) by { EscapeOpens(s.evidence, key, plan, k); }
    PurgingMayVerify(s, now);
  }

  lemma {:induction false} EscapeOpens(e: Evidence, key: PlanKey, plan: DeletionPlan, k: nat)
    requires Escapes(e, key, plan, k)
    ensures VerifyingGate(e)
  {
  }

  lemma {:induction false} DossierAdds(e: Evidence, now: int)
    ensures var e' := WithDossier(e, Reset, now);
            SubMap(e.plans, e'.plans) && e'.receipts == e.receipts
  {
  }

  /** The exact condition of coverage holds over runs too: an uncovered plan can count as purged
    * when VERIFYING_RESET is entered exactly when there is room for it. */
  lemma {:induction false} ResetForcesCoverageIff(plan: DeletionPlan, k: nat)
    requires plan.kind.Reset?
    ensures ResetForcesCoverage(plan, k) <==> !Room(plan, k)
  {
    hide Escapes, EntersVerifying, Room, Recorded;
    GateForcesCoverageIff(plan, k);
    if Room(plan, k) {
      var rows := RoomLetsEscape(plan, k);
      var creation := Creation("policies", "owner", 0);
      var events := EscapeIsReached(creation, rows, KEY, plan, k, 0);
      var s := Exec(Initial(creation), events);
      assert EntersVerifying(s, StepTo(s, VerifyingReset, 0)) && Escapes(s.evidence, KEY, plan, k);
    } else {
      forall creation: Creation, events: seq<Event>, e: Event, key: PlanKey
        | EntersVerifying(Exec(Initial(creation), events), e)
        ensures !Escapes(Exec(Initial(creation), events).evidence, key, plan, k)
      {
        var rows := EvidenceIsRecorded(creation, events);
        assert !Escapes(Recorded(NoEvidence, rows), key, plan, k);
      }
    }
  }
}
