/** The gate of VERIFYING_RESET counts receipts. When does that cover the items of the plan? */
module LifecycleCoverage {
  import opened Wrappers
  import opened LifecycleEvidence
  import opened LifecycleTransition
  import opened LifecycleRuns

  // ----- evidence the tables accept -----

  lemma {:induction false} RecordedConstraints(rows: seq<Row>)
    ensures Constraints(Recorded(NoEvidence, rows))
  {
    ConstraintsRecorded(NoEvidence, rows);
  }

  /** The evidence of every reachable workspace is recorded by inserts. */
  lemma {:induction false} EvidenceIsRecorded(creation: Creation, events: seq<Event>) returns (rows: seq<Row>)
    ensures Exec(Initial(creation), events).evidence == Recorded(NoEvidence, rows)
  {
    rows := RowsOf(events);
    RunRecords(Initial(creation), events);
  }

  /** And any evidence so recorded is that of a reachable workspace. */
  lemma {:induction false} RecordedIsReachable(creation: Creation, rows: seq<Row>) returns (events: seq<Event>)
    ensures Exec(Initial(creation), events).evidence == Recorded(NoEvidence, rows)
  {
    events := Records(rows);
    RecordsRun(Initial(creation), rows);
  }

  // ----- what is counted and what is covered -----

  /** Every item of the plan has a receipt saying it is gone. */
  predicate Covered(e: Evidence, plan: PlanKey)
    requires plan in e.plans
  {
    forall item | item in e.plans[plan].items ::
      exists r | r in e.receipts :: ReportsGone(e, r, plan, item)
  }

  predicate ReportsGone(e: Evidence, r: Id, plan: PlanKey, item: Item) {
    && r in e.receipts && e.receipts[r].plan == plan && e.receipts[r].item == item
    && e.receipts[r].outcome in {Deleted, AlreadyAbsent}
  }

  function ItemSet(items: seq<Item>): set<Item> {
    set i | i in items
  }

  function ItemsOf(e: Evidence, receipts: set<Id>): set<Item>
    requires forall r | r in receipts :: r in e.receipts
  {
    set r | r in receipts :: e.receipts[r].item
  }

  /** The operations the good receipts of a plan come from. */
  function Operations(e: Evidence, plan: PlanKey): (operations: set<Id>)
    ensures forall r | r in GoodReceipts(e, plan) :: e.receipts[r].operation in operations
  {
    set r | r in GoodReceipts(e, plan) :: e.receipts[r].operation
  }

  /** The good receipts of a plan name items of the plan. No constraint asks for it. */
  predicate NamesPlanItems(e: Evidence, plan: PlanKey)
    requires plan in e.plans
  {
    ItemsOf(e, GoodReceipts(e, plan)) <= ItemSet(e.plans[plan].items)
  }

  predicate NoDuplicates(items: seq<Item>) {
    forall i, j | 0 <= i < j < |items| :: items[i] != items[j]
  }

  /** A plan is covered exactly when its good receipts name as many distinct items of the plan
    * as the plan has. The gate counts receipts and array entries instead. */
  lemma {:induction false} CoveredIffEnoughNamed(e: Evidence, plan: PlanKey)
    requires plan in e.plans
    ensures var wanted := ItemSet(e.plans[plan].items);
            Covered(e, plan) <==> |ItemsOf(e, GoodReceipts(e, plan)) * wanted| >= |wanted|
  {
    var wanted, named := ItemSet(e.plans[plan].items), ItemsOf(e, GoodReceipts(e, plan));
    SubsetBySize(named * wanted, wanted);
    if Covered(e, plan) {
      assert named * wanted == wanted;
    }
    if named * wanted == wanted {
      forall item | item in e.plans[plan].items
        ensures exists r | r in GoodReceipts(e, plan) :: e.receipts[r].item == item
      {
        assert item in wanted && item in named;
      }
    }
  }

  // ----- how many receipts there is room for -----

  lemma {:induction false} OneOperationNamesEachOnce(e: Evidence, receipts: set<Id>, operation: Id)
    requires Constraints(e)
    requires forall r | r in receipts :: r in e.receipts && e.receipts[r].operation == operation
    ensures |ItemsOf(e, receipts)| == |receipts|
    decreases |receipts|
  {
    if |receipts| > 0 {
      var r := AnyOf(receipts);
      var rest := receipts - {r};
      OneOperationNamesEachOnce(e, rest, operation);
      assert ItemsOf(e, receipts) == ItemsOf(e, rest) + {e.receipts[r].item};
      assert e.receipts[r].item !in ItemsOf(e, rest);
    }
  }

  /** The unique key leaves each operation one receipt for each item. */
  lemma {:induction false} ReceiptsBounded(e: Evidence, receipts: set<Id>, operations: set<Id>, items: set<Item>)
    requires Constraints(e)
    requires forall r | r in receipts ::
               r in e.receipts && e.receipts[r].operation in operations && e.receipts[r].item in items
    ensures |receipts| <= |operations| * |items|
    decreases |operations|
  {
    if |operations| == 0 {
      assert operations == {};
      assert forall r :: r !in receipts;
      assert receipts == {};
    } else {
      var o := AnyOf(operations);
      var mine := set r | r in receipts && e.receipts[r].operation == o;
      ReceiptsBounded(e, receipts - mine, operations - {o}, items);
      OneOperationNamesEachOnce(e, mine, o);
      SubsetBySize(ItemsOf(e, mine), items);
      assert |receipts| == |receipts - mine| + |mine|;
      assert (|operations| - 1) * |items| + |items| == |operations| * |items|;
    }
  }

  lemma {:induction false} NamedAtMostReceipts(e: Evidence, receipts: set<Id>)
    requires forall r | r in receipts :: r in e.receipts
    ensures |ItemsOf(e, receipts)| <= |receipts|
    decreases |receipts|
  {
    if |receipts| > 0 {
      var r := AnyOf(receipts);
      NamedAtMostReceipts(e, receipts - {r});
      assert ItemsOf(e, receipts) == ItemsOf(e, receipts - {r}) + {e.receipts[r].item};
    }
  }

  lemma {:induction false} ItemSetSize(items: seq<Item>)
    ensures |ItemSet(items)| <= |items|
    ensures NoDuplicates(items) ==> |ItemSet(items)| == |items|
  {
    if items != [] {
      var n := |items| - 1;
      ItemSetSize(items[..n]);
      assert ItemSet(items) == ItemSet(items[..n]) + {items[n]};
      if NoDuplicates(items) {
        assert items[n] !in items[..n];
      }
    }
  }

  lemma {:induction false} FewOperationsNameEachOnce(e: Evidence, plan: PlanKey)
    requires Constraints(e) && |Operations(e, plan)| <= 1
    ensures |ItemsOf(e, GoodReceipts(e, plan))| == |GoodReceipts(e, plan)|
  {
    var good := GoodReceipts(e, plan);
    if |good| > 0 {
      var operation := e.receipts[AnyOf(good)].operation;
      SubsetBySize({operation}, Operations(e, plan));
      OneOperationNamesEachOnce(e, good, operation);
    } else {
      assert good == {} && ItemsOf(e, good) == {};
    }
  }

  /** For a plan of distinct items whose receipts come from one operation and name its items,
    * the count and the coverage agree. */
  lemma {:induction false} CountingIsCovering(e: Evidence, plan: PlanKey)
    requires Constraints(e) && plan in e.plans
    ensures NoDuplicates(e.plans[plan].items) && NamesPlanItems(e, plan) && |Operations(e, plan)| <= 1 ==>
              (|GoodReceipts(e, plan)| >= |e.plans[plan].items| <==> Covered(e, plan))
  {
    if NoDuplicates(e.plans[plan].items) && NamesPlanItems(e, plan) && |Operations(e, plan)| <= 1 {
      var named, wanted := ItemsOf(e, GoodReceipts(e, plan)), ItemSet(e.plans[plan].items);
      CoveredIffEnoughNamed(e, plan);
      ItemSetSize(e.plans[plan].items);
      FewOperationsNameEachOnce(e, plan);
      hide GoodReceipts, Covered, Constraints, NoDuplicates;
      assert named * wanted == named;
    }
  }

  // ----- exactly when the gate forces coverage -----

  /** The gate is open for a plan with an uncovered item, its receipts naming only items of the
    * plan and coming from at most `k` operations. */
  predicate Escapes(e: Evidence, key: PlanKey, plan: DeletionPlan, k: nat) {
    && key in e.plans && e.plans[key] == plan
    && |Operations(e, key)| <= k && NamesPlanItems(e, key)
    && Purged(e, key) && !Covered(e, key)
  }

  /** The same, whatever items the receipts name. */
  predicate EscapesAnywhere(e: Evidence, key: PlanKey, plan: DeletionPlan, k: nat) {
    && key in e.plans && e.plans[key] == plan
    && |Operations(e, key)| <= k
    && Purged(e, key) && !Covered(e, key)
  }

  /** Whatever the tables accept, an open gate means that the plan is covered. */
  ghost predicate GateForcesCoverage(plan: DeletionPlan, k: nat) {
    forall rows: seq<Row>, key: PlanKey :: !Escapes(Recorded(NoEvidence, rows), key, plan, k)
  }

  ghost predicate GateForcesCoverageAnywhere(plan: DeletionPlan, k: nat) {
    forall rows: seq<Row>, key: PlanKey :: !EscapesAnywhere(Recorded(NoEvidence, rows), key, plan, k)
  }

  /** Room for a full count beside an item nobody names. */
  predicate Room(plan: DeletionPlan, k: nat) {
    var d := |ItemSet(plan.items)|;
    d >= 1 && k * (d - 1) >= |plan.items|
  }

  lemma {:induction false} EscapeCounts(e: Evidence, key: PlanKey, plan: DeletionPlan, k: nat)
    requires Constraints(e) && Escapes(e, key, plan, k)
    ensures var named := |ItemsOf(e, GoodReceipts(e, key))|;
            && |plan.items| <= |GoodReceipts(e, key)| <= |Operations(e, key)| * named
            && named < |ItemSet(plan.items)|
  {
    var good, wanted := GoodReceipts(e, key), ItemSet(plan.items);
    var named := ItemsOf(e, good);
    CoveredIffEnoughNamed(e, key);
    assert named * wanted == named;
    ReceiptsBounded(e, good, Operations(e, key), named);
  }

  lemma {:induction false} EscapeNeedsRoom(e: Evidence, key: PlanKey, plan: DeletionPlan, k: nat)
    requires Constraints(e) && Escapes(e, key, plan, k)
    ensures Room(plan, k)
  {
    EscapeCounts(e, key, plan, k);
    assert |Operations(e, key)| <= k;
    hide Constraints, Escapes, Operations, GoodReceipts;
    ProductRises(|Operations(e, key)|, k, |ItemsOf(e, GoodReceipts(e, key))|, |ItemSet(plan.items)| - 1);
  }

  lemma {:induction false} ProductRises(a: nat, b: nat, c: nat, d: nat)
    requires a <= b && c <= d
    ensures a * c <= b * d
  {
  }

  // ----- building evidence that escapes -----

  const KEY := PlanKey(1, 1)

  /** Receipts of the plan `KEY` that the tables accept one after the other. */
  predicate Acceptable(receipts: seq<AdapterReceipt>) {
    && (forall i | 0 <= i < |receipts| ::
          receipts[i].plan == KEY && receipts[i].before >= 0 && receipts[i].after >= 0)
    && (forall i, j | 0 <= i < j < |receipts| ::
          receipts[i].operation != receipts[j].operation || receipts[i].item != receipts[j].item)
  }

  function Tables(plan: DeletionPlan, receipts: seq<AdapterReceipt>): Evidence {
    NoEvidence.(plans := map[KEY := plan], receipts := map i | 0 <= i < |receipts| :: receipts[i])
  }

  function Inserts(plan: DeletionPlan, receipts: seq<AdapterReceipt>): seq<Row> {
    if receipts == [] then [PlanRow(KEY, plan)]
    else Inserts(plan, receipts[..|receipts| - 1]) + [ReceiptRow(|receipts| - 1, receipts[|receipts| - 1])]
  }

  lemma {:induction false} InsertsAccepted(plan: DeletionPlan, receipts: seq<AdapterReceipt>)
    requires Acceptable(receipts)
    ensures Recorded(NoEvidence, Inserts(plan, receipts)) == Tables(plan, receipts)
  {
    var rows := Inserts(plan, receipts);
    if receipts == [] {
      assert rows[..0] == [];
      assert Recorded(NoEvidence, rows) == Inserted(NoEvidence, PlanRow(KEY, plan));
      assert Tables(plan, receipts).receipts == map[];
    } else {
      var n := |receipts| - 1;
      InsertsAccepted(plan, receipts[..n]);
      assert rows[..|rows| - 1] == Inserts(plan, receipts[..n]);
      ReceiptAccepted(plan, receipts);
    }
  }

  lemma {:induction false} ReceiptAccepted(plan: DeletionPlan, receipts: seq<AdapterReceipt>)
    requires receipts != [] && Acceptable(receipts)
    ensures var n := |receipts| - 1;
            Inserted(Tables(plan, receipts[..n]), ReceiptRow(n, receipts[n])) == Tables(plan, receipts)
  {
    var n := |receipts| - 1;
    var e := Tables(plan, receipts[..n]);
    assert Accepts(e, ReceiptRow(n, receipts[n]));
    assert e.receipts[n := receipts[n]] == Tables(plan, receipts).receipts;
  }

  function Below(n: nat): (s: set<int>)
    ensures |s| == n && forall i :: i in s <==> 0 <= i < n
  {
    if n == 0 then {} else Below(n - 1) + {n - 1}
  }

  /** Deletions for the plan `KEY` by operations below `k`. */
  predicate DeletionsBelow(receipts: seq<AdapterReceipt>, k: nat) {
    forall i | 0 <= i < |receipts| ::
      receipts[i].plan == KEY && receipts[i].outcome.Deleted? && 0 <= receipts[i].operation < k
  }

  lemma {:induction false} TablesCounted(plan: DeletionPlan, receipts: seq<AdapterReceipt>, k: nat)
    requires DeletionsBelow(receipts, k)
    ensures var e := Tables(plan, receipts);
            && GoodReceipts(e, KEY) == Below(|receipts|)
            && !HasBadReceipt(e, KEY)
            && |Operations(e, KEY)| <= k
  {
    var e := Tables(plan, receipts);
    assert GoodReceipts(e, KEY) == Below(|receipts|);
    SubsetBySize(Operations(e, KEY), Below(k));
  }

  /** Enough such deletions open the gate, and an item none of them names stays uncovered. */
  lemma {:induction false} UncoveredTables(
      plan: DeletionPlan, receipts: seq<AdapterReceipt>, missing: Item, k: nat)
    requires plan.kind.Reset? && missing in plan.items && |receipts| >= |plan.items|
    requires DeletionsBelow(receipts, k)
    requires forall i | 0 <= i < |receipts| :: receipts[i].item != missing
    ensures EscapesAnywhere(Tables(plan, receipts), KEY, plan, k)
    ensures (forall i | 0 <= i < |receipts| :: receipts[i].item in plan.items) ==>
              Escapes(Tables(plan, receipts), KEY, plan, k)
  {
    var e := Tables(plan, receipts);
    TablesCounted(plan, receipts, k);
    hide DeletionsBelow, HasBadReceipt, GoodReceipts, Operations;
    forall r | r in GoodReceipts(e, KEY)
      ensures e.receipts[r] == receipts[r] && e.receipts[r].item != missing
    {
    }
    assert missing in e.plans[KEY].items;
    assert !Covered(e, KEY);
  }

  /** The items of a plan, each once. */
  function WithoutRepeats(items: seq<Item>): (d: seq<Item>)
    ensures NoDuplicates(d) && ItemSet(d) == ItemSet(items)
  {
    if items == [] then []
    else
      var n := |items| - 1;
      var before := WithoutRepeats(items[..n]);
      assert ItemSet(items) == ItemSet(items[..n]) + {items[n]};
      assert items[n] in before <==> items[n] in ItemSet(before);
      if items[n] in before then before else
        assert ItemSet(before + [items[n]]) == ItemSet(before) + {items[n]};
        before + [items[n]]
  }

  function DeletedReceipt(operation: Id, item: Item): AdapterReceipt {
    AdapterReceipt(KEY, operation, item, Deleted, 1, 0)
  }

  /** Each of `k` operations deletes each of the items. */
  function Spread(items: seq<Item>, k: nat): (receipts: seq<AdapterReceipt>)
    ensures |receipts| == k * |items|
    ensures forall r | r in receipts ::
              r.plan == KEY && r.outcome.Deleted? && r.item in items
              && 0 <= r.operation < k && r.before == 1 && r.after == 0
  {
    if k == 0 then [] else
      assert (k - 1) * |items| + |items| == k * |items|;
      Spread(items, k - 1) + seq(|items|, i requires 0 <= i < |items| => DeletedReceipt(k - 1, items[i]))
  }

  lemma {:induction false} SpreadAcceptable(items: seq<Item>, k: nat)
    requires NoDuplicates(items)
    ensures Acceptable(Spread(items, k))
  {
    var receipts := Spread(items, k);
    assert forall i | 0 <= i < |receipts| :: receipts[i] in receipts;
    if k > 0 {
      SpreadAcceptable(items, k - 1);
      var before := Spread(items, k - 1);
      assert forall i | 0 <= i < |before| :: before[i] in before;
    }
  }

  lemma {:induction false} RoomLetsEscape(plan: DeletionPlan, k: nat) returns (rows: seq<Row>)
    requires plan.kind.Reset? && Room(plan, k)
    ensures Escapes(Recorded(NoEvidence, rows), KEY, plan, k)
  {
    var distinct := WithoutRepeats(plan.items);
    ItemSetSize(distinct);
    var last := distinct[|distinct| - 1];
    var others := distinct[..|distinct| - 1];
    var receipts := Spread(others, k);
    SpreadAcceptable(others, k);
    forall i | 0 <= i < |receipts|
      ensures receipts[i].item in plan.items && receipts[i].item != last
      ensures receipts[i].plan == KEY && receipts[i].outcome.Deleted? && 0 <= receipts[i].operation < k
    {
      assert receipts[i] in receipts && receipts[i].item in others;
      assert receipts[i].item in ItemSet(distinct);
    }
    assert last in ItemSet(distinct);
    rows := Inserts(plan, receipts);
    InsertsAccepted(plan, receipts);
    UncoveredTables(plan, receipts, last, k);
  }

  /** With receipts that name items of the plan and come from at most `k` operations, the gate
    * forces coverage exactly when k operations cannot reach the count without the last item. */
  lemma {:induction false} GateForcesCoverageIff(plan: DeletionPlan, k: nat)
    requires plan.kind.Reset?
    ensures GateForcesCoverage(plan, k) <==> !Room(plan, k)
  {
    if Room(plan, k) {
      var rows := RoomLetsEscape(plan, k);
      assert Escapes(Recorded(NoEvidence, rows), KEY, plan, k);
    } else {
      forall rows: seq<Row>, key: PlanKey
        ensures !Escapes(Recorded(NoEvidence, rows), key, plan, k)
      {
        RecordedConstraints(rows);
        if Escapes(Recorded(NoEvidence, rows), key, plan, k) {
          EscapeNeedsRoom(Recorded(NoEvidence, rows), key, plan, k);
        }
      }
    }
  }

  /** For a plan of distinct items: exactly when one operation did it all, or one item is all. */
  lemma {:induction false} DistinctItemsForcedIff(plan: DeletionPlan, k: nat)
    requires plan.kind.Reset? && NoDuplicates(plan.items)
    ensures GateForcesCoverage(plan, k) <==> k <= 1 || |plan.items| <= 1
  {
    GateForcesCoverageIff(plan, k);
    ItemSetSize(plan.items);
    var d := |plan.items|;
    if k >= 2 && d >= 2 {
      ProductRises(2, k, d - 1, d - 1);
    } else if d >= 1 && k <= 1 {
      ProductRises(k, 1, d - 1, d - 1);
    }
  }

  /** So two operations leave an item of any plan of two or more distinct items uncovered. */
  lemma {:induction false} TwoOperationsMissAnItem(plan: DeletionPlan) returns (rows: seq<Row>)
    requires plan.kind.Reset? && NoDuplicates(plan.items) && |plan.items| >= 2
    ensures Escapes(Recorded(NoEvidence, rows), KEY, plan, 2)
  {
    ItemSetSize(plan.items);
    rows := RoomLetsEscape(plan, 2);
  }

  // ----- receipts for items outside the plan -----

  function Longest(items: seq<Item>): nat {
    if items == [] then 0
    else
      var before := Longest(items[..|items| - 1]);
      var last := |items[|items| - 1].name|;
      if last > before then last else before
  }

  lemma {:induction false} LongestBounds(items: seq<Item>, item: Item)
    requires item in items
    ensures |item.name| <= Longest(items)
  {
    var n := |items| - 1;
    assert items == items[..n] + [items[n]];
    if item in items[..n] {
      LongestBounds(items[..n], item);
    }
  }

  /** Deletions, by one operation, of items with longer names than any in the plan. */
  function ForeignReceipts(plan: DeletionPlan): (receipts: seq<AdapterReceipt>)
    ensures |receipts| == |plan.items|
    ensures forall i | 0 <= i < |receipts| :: receipts[i] == ForeignReceipt(plan, i)
  {
    seq(|plan.items|, i requires 0 <= i < |plan.items| => ForeignReceipt(plan, i))
  }

  function ForeignReceipt(plan: DeletionPlan, i: nat): AdapterReceipt {
    DeletedReceipt(0, Item("postgres.workspace", Repeated(Longest(plan.items) + 1 + i)))
  }

  lemma {:induction false} ForeignReceiptsEscape(plan: DeletionPlan, k: nat) returns (rows: seq<Row>)
    requires plan.kind.Reset? && plan.items != [] && k >= 1
    ensures EscapesAnywhere(Recorded(NoEvidence, rows), KEY, plan, k)
  {
    var receipts := ForeignReceipts(plan);
    LongestBounds(plan.items, plan.items[0]);
    assert Acceptable(receipts);
    rows := Inserts(plan, receipts);
    InsertsAccepted(plan, receipts);
    UncoveredTables(plan, receipts, plan.items[0], k);
  }

  lemma {:induction false} NoOperationsNoReceipts(e: Evidence, key: PlanKey)
    ensures |Operations(e, key)| == 0 ==> |GoodReceipts(e, key)| == 0
  {
    if |GoodReceipts(e, key)| > 0 {
      var r := AnyOf(GoodReceipts(e, key));
      assert Operations(e, key) != {};
    }
  }

  /** The tables do not ask that receipts name items of the plan. Without that, the gate forces
    * coverage only of the empty plan, or when there is no receipt at all. */
  lemma {:induction false} AnyItemsForcedIff(plan: DeletionPlan, k: nat)
    requires plan.kind.Reset?
    ensures GateForcesCoverageAnywhere(plan, k) <==> k == 0 || plan.items == []
  {
    if k >= 1 && plan.items != [] {
      var rows := ForeignReceiptsEscape(plan, k);
      assert EscapesAnywhere(Recorded(NoEvidence, rows), KEY, plan, k);
    } else {
      forall rows: seq<Row>, key: PlanKey
        ensures !EscapesAnywhere(Recorded(NoEvidence, rows), key, plan, k)
      {
        NoOperationsNoReceipts(Recorded(NoEvidence, rows), key);
      }
    }
  }
}
