/** Corpus snapshots: headers whose counts are verified against their memberships when the
  * transaction that inserts them commits, and occurrences that need an accepted boundary.
  */
module CorpusSnapshot {
  import opened Wrappers
  import opened LifecycleStates

  type Id = int

  datatype SnapshotKey = SnapshotKey(snapshot: Id, version: int)
  /** `Declined` is the disposition 'rejected'. */
  datatype Disposition = Accepted | Declined | Unresolved
  datatype Completeness = Complete | Partial | OtherOutcome

  datatype Validation = Validation(
    candidate: Id, candidateVersion: int, disposition: Disposition,
    failureCodes: seq<string>, authorityDecision: Option<string>)
  datatype Occurrence = Occurrence(validation: Id, startPage: int, endPage: int)
  datatype Header = Header(
    discovered: int, admitted: int, expectedPages: int, readablePages: int, validatedPages: int,
    acceptedDocuments: int, unresolvedItems: int, outcome: Completeness)

  /** The five tables whose rows belong to a snapshot. */
  datatype Kind = Objects | Pages | Occurrences | UnresolvedItems | Reconciliations
  datatype Member = Member(kind: Kind, snapshot: SnapshotKey, item: Id)

  datatype Corpus = Corpus(
    validations: map<Id, Validation>,
    occurrences: map<Id, Occurrence>,
    headers: map<SnapshotKey, Header>,
    members: set<Member>)

  const EmptyCorpus := Corpus(map[], map[], map[], {})

  datatype Row =
    | ValidationRow(id: Id, validation: Validation)
    | OccurrenceRow(id: Id, occurrence: Occurrence)
    | HeaderRow(key: SnapshotKey, header: Header)
    | MemberRow(member: Member)

  predicate ValidationChecks(v: Validation) {
    v.disposition.Accepted? ==> v.authorityDecision.Some? && v.failureCodes == []
  }

  predicate HeaderChecks(key: SnapshotKey, h: Header) {
    && key.version >= 1
    && 0 <= h.admitted <= h.discovered
    && 0 <= h.validatedPages <= h.readablePages <= h.expectedPages
    && 0 <= h.acceptedDocuments && 0 <= h.unresolvedItems
    && (h.outcome.Complete? ==> h.unresolvedItems == 0)
  }

  /** The trigger of the occurrence table. */
  predicate AcceptedBoundary(c: Corpus, validation: Id) {
    && validation in c.validations
    && c.validations[validation].disposition.Accepted?
    && c.validations[validation].authorityDecision.Some?
  }

  /** An unresolved item belongs to one snapshot; the other members may be shared. */
  predicate MemberKeyFree(c: Corpus, m: Member) {
    && m !in c.members
    && (m.kind.UnresolvedItems? ==>
          forall n | n in c.members :: !(n.kind.UnresolvedItems? && n.item == m.item))
  }

  /** Triggers, keys, checks and foreign keys, all checked at the insert itself. */
  predicate Admits(c: Corpus, state: State, row: Row) {
    && FenceAdmits(state, false)
    && match row
       case ValidationRow(id, v) =>
         && id !in c.validations && ValidationChecks(v)
         && (forall k | k in c.validations ::
               c.validations[k].candidate != v.candidate || c.validations[k].candidateVersion != v.candidateVersion)
       case OccurrenceRow(id, o) =>
         AcceptedBoundary(c, o.validation) && id !in c.occurrences && 1 <= o.startPage <= o.endPage
       case HeaderRow(key, h) => key !in c.headers && HeaderChecks(key, h)
       case MemberRow(m) =>
         && MemberKeyFree(c, m) && m.snapshot in c.headers
         && (m.kind.Occurrences? ==> m.item in c.occurrences)
  }

  function Add(c: Corpus, row: Row): Corpus {
    match row
    case ValidationRow(id, v) => c.(validations := c.validations[id := v])
    case OccurrenceRow(id, o) => c.(occurrences := c.occurrences[id := o])
    case HeaderRow(key, h) => c.(headers := c.headers[key := h])
    case MemberRow(m) => c.(members := c.members + {m})
  }

  function MembersOf(c: Corpus, kind: Kind, key: SnapshotKey): set<Member> {
    set m | m in c.members && m.kind == kind && m.snapshot == key
  }

  function Count(c: Corpus, kind: Kind, key: SnapshotKey): nat {
    |MembersOf(c, kind, key)|
  }

  /** The header counts are those of the memberships. */
  predicate Exact(c: Corpus, key: SnapshotKey)
    requires key in c.headers
  {
    && Count(c, Objects, key) == c.headers[key].discovered
    && Count(c, Pages, key) == c.headers[key].expectedPages
    && Count(c, Occurrences, key) == c.headers[key].acceptedDocuments
    && Count(c, UnresolvedItems, key) == c.headers[key].unresolvedItems
  }

  /** The deferred trigger of a header. */
  predicate InventoryVerified(c: Corpus, key: SnapshotKey)
    requires key in c.headers
  {
    Exact(c, key) && Count(c, Reconciliations, key) != 0
  }

  /** All rows of a transaction, one after the other, or none. */
  function AddAll(c: Corpus, state: State, rows: seq<Row>): Option<Corpus> {
    if rows == [] then Some(c)
    else
      match AddAll(c, state, rows[..|rows| - 1])
      case None => None
      case Some(c') => if Admits(c', state, rows[|rows| - 1]) then Some(Add(c', rows[|rows| - 1])) else None
  }

  /** The deferred checks waiting when the transaction commits. */
  predicate DeferredPass(c: Corpus, rows: seq<Row>) {
    forall r | r in rows && r.HeaderRow? && r.key in c.headers :: InventoryVerified(c, r.key)
  }

  function Committed(c: Corpus, state: State, rows: seq<Row>): Option<Corpus> {
    match AddAll(c, state, rows)
    case None => None
    case Some(c') => if DeferredPass(c', rows) then Some(c') else None
  }

  /** ON DELETE RESTRICT between the modelled tables. */
  predicate InUse(c: Corpus, row: Row) {
    match row
    case ValidationRow(id, _) => exists o | o in c.occurrences :: c.occurrences[o].validation == id
    case OccurrenceRow(id, _) => exists m | m in c.members :: m.kind.Occurrences? && m.item == id
    case HeaderRow(key, _) => exists m | m in c.members :: m.snapshot == key
    case MemberRow(_) => false
  }

  function Removed(c: Corpus, row: Row): Corpus {
    match row
    case ValidationRow(id, _) => c.(validations := c.validations - {id})
    case OccurrenceRow(id, _) => c.(occurrences := c.occurrences - {id})
    case HeaderRow(key, _) => c.(headers := c.headers - {key})
    case MemberRow(m) => c.(members := c.members - {m})
  }

  /** `pinned` says that a table outside this model refers to the deleted row. */
  datatype Step =
    | Transaction(state: State, rows: seq<Row>)
    | ExecutorDelete(pinned: bool, row: Row)

  function Next(c: Corpus, step: Step): Corpus {
    match step
    case Transaction(state, rows) =>
      (match Committed(c, state, rows)
       case None => c
       case Some(c') => c')
    case ExecutorDelete(pinned, row) => if pinned || InUse(c, row) then c else Removed(c, row)
  }

  function Exec(c: Corpus, steps: seq<Step>): Corpus {
    if steps == [] then c
    else Next(Exec(c, steps[..|steps| - 1]), steps[|steps| - 1])
  }

  /** The tables, with transactions run row by row. */
  class CorpusStore {
    var corpus: Corpus

    constructor ()
      ensures corpus == EmptyCorpus
    {
      corpus := EmptyCorpus;
    }

    /** Inserts the rows in order, then fires the deferred triggers; any failure rolls back. */
    method Commit(state: State, rows: seq<Row>) returns (committed: bool)
      modifies this
      ensures corpus == Next(old(corpus), Transaction(state, rows))
      ensures committed == Committed(old(corpus), state, rows).Some?
    {
      var saved := corpus;
      committed := InsertRows(state, rows);
      if committed {
        committed := FireDeferred(rows);
      }
      if !committed {
        corpus := saved;
      }
    }

    /** The statements of the transaction, up to the first that fails. */
    method InsertRows(state: State, rows: seq<Row>) returns (inserted: bool)
      modifies this
      ensures inserted <==> AddAll(old(corpus), state, rows).Some?
      ensures inserted ==> corpus == AddAll(old(corpus), state, rows).value
    {
      hide Admits, Add;
      ghost var start := corpus;
      for i := 0 to |rows|
        invariant AddAll(start, state, rows[..i]) == Some(corpus)
      {
        assert rows[..i + 1][..i] == rows[..i];
        if !Admits(corpus, state, rows[i]) {
          NoneStays(start, state, rows, i + 1);
          return false;
        }
        corpus := Add(corpus, rows[i]);
      }
      assert rows[..|rows|] == rows;
      return true;
    }

    /** The deferred trigger of each header of the transaction. */
    method FireDeferred(rows: seq<Row>) returns (passed: bool)
      ensures passed == DeferredPass(corpus, rows)
    {
      hide InventoryVerified;
      for i := 0 to |rows|
        invariant forall r | r in rows[..i] && r.HeaderRow? && r.key in corpus.headers ::
                    InventoryVerified(corpus, r.key)
      {
        if rows[i].HeaderRow? && rows[i].key in corpus.headers {
          var verified := VerifyInventory(corpus.headers[rows[i].key], rows[i].key);
          if !verified {
            return false;
          }
        }
      }
      assert rows[..|rows|] == rows;
      return true;
    }

    /** The deferred trigger: counts the five memberships and compares. */
    method VerifyInventory(header: Header, key: SnapshotKey) returns (verified: bool)
      requires key in corpus.headers && corpus.headers[key] == header
      ensures verified == InventoryVerified(corpus, key)
      ensures verified && HeaderChecks(key, header) ==> LowerBounds(corpus, key)
    {
      var objectCount, pageCount := 0, 0;
      var occurrenceCount, unresolvedCount, reconciliationCount := 0, 0, 0;
      objectCount := |set m | m in corpus.members && m.kind == Objects && m.snapshot == key|;
      pageCount := |set m | m in corpus.members && m.kind == Pages && m.snapshot == key|;
      occurrenceCount := |set m | m in corpus.members && m.kind == Occurrences && m.snapshot == key|;
      unresolvedCount := |set m | m in corpus.members && m.kind == UnresolvedItems && m.snapshot == key|;
      reconciliationCount := |set m | m in corpus.members && m.kind == Reconciliations && m.snapshot == key|;
      if objectCount != header.discovered || pageCount != header.expectedPages
         || occurrenceCount != header.acceptedDocuments || unresolvedCount != header.unresolvedItems
         || reconciliationCount == 0 {
        return false;
      }
      return true;
    }

    method DeleteRow(pinned: bool, row: Row)
      modifies this
      ensures corpus == Next(old(corpus), ExecutorDelete(pinned, row))
    {
      if !pinned && !InUse(corpus, row) {
        corpus := Removed(corpus, row);
      }
    }
  }

  lemma {:induction false} NoneStays(c: Corpus, state: State, rows: seq<Row>, i: nat)
    requires i <= |rows| && AddAll(c, state, rows[..i]).None?
    ensures AddAll(c, state, rows).None?
    decreases |rows|
  {
    if i < |rows| {
      assert rows[..|rows| - 1][..i] == rows[..i];
      NoneStays(c, state, rows[..|rows| - 1], i);
    } else {
      assert rows[..i] == rows;
    }
  }

  // ----- accounting -----

  /** A corpus that only gained rows. */
  predicate Extends(c: Corpus, c': Corpus) {
    SubMap(c.headers, c'.headers) && c.members <= c'.members
  }

  lemma {:induction false} AddAllExtends(c: Corpus, state: State, rows: seq<Row>)
    requires AddAll(c, state, rows).Some?
    ensures Extends(c, AddAll(c, state, rows).value)
    ensures forall r | r in rows && r.HeaderRow? :: r.key in AddAll(c, state, rows).value.headers
    ensures forall key | key in AddAll(c, state, rows).value.headers && key !in c.headers ::
              HeaderRow(key, AddAll(c, state, rows).value.headers[key]) in rows
    decreases |rows|
  {
    if rows != [] {
      var n := |rows| - 1;
      AddAllExtends(c, state, rows[..n]);
      assert rows == rows[..n] + [rows[n]];
    }
  }

  /** The four counts of the header, each over its own membership table, and a reconciliation. */
  predicate Balanced(c: Corpus, key: SnapshotKey)
    requires key in c.headers
  {
    var h := c.headers[key];
    && h.discovered == |set m | m in c.members && m.snapshot == key && m.kind == Objects|
    && h.expectedPages == |set m | m in c.members && m.snapshot == key && m.kind == Pages|
    && h.acceptedDocuments == |set m | m in c.members && m.snapshot == key && m.kind == Occurrences|
    && h.unresolvedItems == |set m | m in c.members && m.snapshot == key && m.kind == UnresolvedItems|
    && exists m | m in c.members :: m.snapshot == key && m.kind == Reconciliations
  }

  lemma {:induction false} MembersCounted(c: Corpus, kind: Kind, key: SnapshotKey)
    ensures MembersOf(c, kind, key) == set m | m in c.members && m.snapshot == key && m.kind == kind
    ensures Count(c, kind, key) != 0 <==> exists m | m in c.members :: m.snapshot == key && m.kind == kind
  {
    if m :| m in c.members && m.snapshot == key && m.kind == kind {
      assert m in MembersOf(c, kind, key);
    }
    if |MembersOf(c, kind, key)| > 0 {
      var m := AnyOf(MembersOf(c, kind, key));
    }
  }

  lemma {:induction false} VerifiedIffBalanced(c: Corpus, key: SnapshotKey)
    requires key in c.headers
    ensures InventoryVerified(c, key) <==> Balanced(c, key)
  {
    MembersCounted(c, Objects, key);
    MembersCounted(c, Pages, key);
    MembersCounted(c, Occurrences, key);
    MembersCounted(c, UnresolvedItems, key);
    MembersCounted(c, Reconciliations, key);
  }

  /** At the commit that inserts a snapshot, its counts are exact and it has a reconciliation. */
  lemma {:induction false} CountsExactAtCommit(c: Corpus, state: State, rows: seq<Row>, key: SnapshotKey)
    requires key !in c.headers && key in Next(c, Transaction(state, rows)).headers
    ensures InventoryVerified(Next(c, Transaction(state, rows)), key)
    ensures Balanced(Next(c, Transaction(state, rows)), key)
  {
    AddAllExtends(c, state, rows);
    assert HeaderRow(key, Next(c, Transaction(state, rows)).headers[key]) in rows;
    VerifiedIffBalanced(Next(c, Transaction(state, rows)), key);
  }

  /** The rows can be added one after the other, each admitted by the corpus with those before it. */
  predicate Addable(c: Corpus, state: State, rows: seq<Row>)
    decreases |rows|
  {
    rows == [] || (Admits(c, state, rows[0]) && Addable(Add(c, rows[0]), state, rows[1..]))
  }

  function AddedUp(c: Corpus, rows: seq<Row>): Corpus
    decreases |rows|
  {
    if rows == [] then c else AddedUp(Add(c, rows[0]), rows[1..])
  }

  lemma {:induction false} AddAllForward(c: Corpus, state: State, rows: seq<Row>)
    requires rows != []
    ensures AddAll(c, state, rows) ==
            if Admits(c, state, rows[0]) then AddAll(Add(c, rows[0]), state, rows[1..]) else None
    decreases |rows|
  {
    hide Admits, Add;
    var n := |rows| - 1;
    if n == 0 {
      assert rows[..0] == [] && rows[1..] == [];
    } else {
      AddAllForward(c, state, rows[..n]);
      assert rows[..n][1..] == rows[1..][..n - 1] && rows[1..][n - 1] == rows[n];
    }
  }

  lemma {:induction false} AddAllIff(c: Corpus, state: State, rows: seq<Row>)
    ensures AddAll(c, state, rows) == if Addable(c, state, rows) then Some(AddedUp(c, rows)) else None
    decreases |rows|
  {
    hide Admits, Add;
    if rows != [] {
      AddAllForward(c, state, rows);
      AddAllIff(Add(c, rows[0]), state, rows[1..]);
    }
  }

  /** A transaction commits exactly when its rows can be added one after the other and each header
    * among them is balanced in the end; then the corpus is the old one with these rows, and
    * otherwise the old one. */
  lemma {:induction false} TransactionIff(c: Corpus, state: State, rows: seq<Row>)
    ensures var c' := AddedUp(c, rows);
            Next(c, Transaction(state, rows)) ==
            if Addable(c, state, rows)
               && forall r | r in rows && r.HeaderRow? && r.key in c'.headers :: Balanced(c', r.key)
            then c' else c
  {
    hide Addable, AddAll, Balanced, InventoryVerified, Admits, Add;
    AddAllIff(c, state, rows);
    var c' := AddedUp(c, rows);
    forall key | key in c'.headers
      ensures InventoryVerified(c', key) <==> Balanced(c', key)
    {
      VerifiedIffBalanced(c', key);
    }
  }

  /** The counts of a header do not exceed its memberships. */
  predicate LowerBounds(c: Corpus, key: SnapshotKey)
    requires key in c.headers
  {
    && HeaderChecks(key, c.headers[key])
    && c.headers[key].discovered <= Count(c, Objects, key)
    && c.headers[key].validatedPages <= c.headers[key].readablePages <= c.headers[key].expectedPages
    && c.headers[key].expectedPages <= Count(c, Pages, key)
    && c.headers[key].acceptedDocuments <= Count(c, Occurrences, key)
    && c.headers[key].unresolvedItems <= Count(c, UnresolvedItems, key)
    && 0 < Count(c, Reconciliations, key)
  }

  lemma {:induction false} CountsGrow(c: Corpus, c': Corpus, kind: Kind, key: SnapshotKey)
    requires Extends(c, c')
    ensures Count(c, kind, key) <= Count(c', kind, key)
    ensures Count(c, kind, key) == Count(c', kind, key) <==> MembersOf(c, kind, key) == MembersOf(c', kind, key)
  {
    SubsetBySize(MembersOf(c, kind, key), MembersOf(c', kind, key));
  }

  lemma {:induction false} LowerBoundsStay(c: Corpus, c': Corpus, key: SnapshotKey)
    requires Extends(c, c') && key in c.headers && LowerBounds(c, key)
    ensures LowerBounds(c', key)
  {
    CountsGrow(c, c', Objects, key);
    CountsGrow(c, c', Pages, key);
    CountsGrow(c, c', Occurrences, key);
    CountsGrow(c, c', UnresolvedItems, key);
    CountsGrow(c, c', Reconciliations, key);
  }

  lemma {:induction false} HeadersChecked(steps: seq<Step>)
    ensures forall key | key in Exec(EmptyCorpus, steps).headers ::
              HeaderChecks(key, Exec(EmptyCorpus, steps).headers[key])
    decreases |steps|
  {
    if steps != [] {
      var n := |steps| - 1;
      HeadersChecked(steps[..n]);
      var c := Exec(EmptyCorpus, steps[..n]);
      if steps[n].Transaction? && Committed(c, steps[n].state, steps[n].rows).Some? {
        AddedHeadersChecked(c, steps[n].state, steps[n].rows);
      }
    }
  }

  lemma {:induction false} AddedHeadersChecked(c: Corpus, state: State, rows: seq<Row>)
    requires forall key | key in c.headers :: HeaderChecks(key, c.headers[key])
    requires AddAll(c, state, rows).Some?
    ensures var c' := AddAll(c, state, rows).value;
            forall key | key in c'.headers :: HeaderChecks(key, c'.headers[key])
    decreases |rows|
  {
    if rows != [] {
      AddedHeadersChecked(c, state, rows[..|rows| - 1]);
    }
  }

  predicate NoDeletes(steps: seq<Step>) {
    forall s | s in steps :: !s.ExecutorDelete?
  }

  predicate AllBounded(c: Corpus) {
    forall key | key in c.headers :: LowerBounds(c, key)
  }

  lemma {:induction false} CommitBounded(c: Corpus, state: State, rows: seq<Row>)
    requires AllBounded(c)
    requires var c' := Next(c, Transaction(state, rows));
             forall key | key in c'.headers :: HeaderChecks(key, c'.headers[key])
    ensures AllBounded(Next(c, Transaction(state, rows)))
  {
    var c' := Next(c, Transaction(state, rows));
    if Committed(c, state, rows).Some? {
      AddAllExtends(c, state, rows);
      forall key | key in c'.headers
        ensures LowerBounds(c', key)
      {
        if key in c.headers {
          assert LowerBounds(c, key);
          LowerBoundsStay(c, c', key);
        } else {
          CountsExactAtCommit(c, state, rows, key);
        }
      }
    }
  }

  /** Until the executor deletes, every header stays a lower bound of its memberships, with
    * validated <= readable <= expected <= stored pages. */
  lemma {:induction false} SnapshotAccounting(steps: seq<Step>)
    requires NoDeletes(steps)
    ensures AllBounded(Exec(EmptyCorpus, steps))
    decreases |steps|
  {
    HeadersChecked(steps);
    if steps != [] {
      var n := |steps| - 1;
      assert !steps[n].ExecutorDelete?;
      SnapshotAccounting(steps[..n]);
      assert Exec(EmptyCorpus, steps) ==
             Next(Exec(EmptyCorpus, steps[..n]), Transaction(steps[n].state, steps[n].rows));
      CommitBounded(Exec(EmptyCorpus, steps[..n]), steps[n].state, steps[n].rows);
    }
  }

  lemma {:induction false} RunExtends(c: Corpus, steps: seq<Step>)
    requires NoDeletes(steps)
    ensures Extends(c, Exec(c, steps))
    decreases |steps|
  {
    if steps != [] {
      var n := |steps| - 1;
      assert !steps[n].ExecutorDelete?;
      RunExtends(c, steps[..n]);
      var before := Exec(c, steps[..n]);
      if Committed(before, steps[n].state, steps[n].rows).Some? {
        AddAllExtends(before, steps[n].state, steps[n].rows);
      }
    }
  }

  /** Exact counts survive a run without deletes exactly when no counted member was added:
    * nothing checks memberships that arrive after the header's own transaction. */
  lemma {:induction false} ExactWhileUntouched(c: Corpus, steps: seq<Step>, key: SnapshotKey)
    requires NoDeletes(steps) && key in c.headers && Exact(c, key)
    ensures key in Exec(c, steps).headers
    ensures Exact(Exec(c, steps), key) <==>
              forall kind: Kind :: !kind.Reconciliations? ==>
                MembersOf(Exec(c, steps), kind, key) == MembersOf(c, kind, key)
  {
    var c' := Exec(c, steps);
    RunExtends(c, steps);
    forall kind: Kind
      ensures Count(c, kind, key) <= Count(c', kind, key)
      ensures Count(c, kind, key) == Count(c', kind, key) <==> MembersOf(c, kind, key) == MembersOf(c', kind, key)
    {
      CountsGrow(c, c', kind, key);
    }
    if Exact(c', key) {
      forall kind: Kind | !kind.Reconciliations?
        ensures MembersOf(c', kind, key) == MembersOf(c, kind, key)
      {
        match kind
        case Objects => assert Count(c', Objects, key) == Count(c, Objects, key);
        case Pages => assert Count(c', Pages, key) == Count(c, Pages, key);
        case Occurrences => assert Count(c', Occurrences, key) == Count(c, Occurrences, key);
        case UnresolvedItems => assert Count(c', UnresolvedItems, key) == Count(c, UnresolvedItems, key);
      }
    }
  }

  /** A page added late to a stored snapshot is accepted, and its header is then short. */
  lemma {:induction false} LateMemberBreaksExactness(c: Corpus, state: State, key: SnapshotKey, page: Id)
    requires Writable(state) && key in c.headers && Exact(c, key)
    requires Member(Pages, key, page) !in c.members
    ensures var c' := Next(c, Transaction(state, [MemberRow(Member(Pages, key, page))]));
            Member(Pages, key, page) in c'.members && key in c'.headers && !Exact(c', key)
  {
    var row := MemberRow(Member(Pages, key, page));
    assert [row][..0] == [] && AddAll(c, state, [row][..0]) == Some(c);
    var c' := Next(c, Transaction(state, [row]));
    assert c' == Add(c, row);
    assert MembersOf(c', Pages, key) == MembersOf(c, Pages, key) + {row.member};
  }

  // ----- what the tables promise -----

  /** An accepted validation names the authority that decided and no failure, and no candidate
    * version is validated twice. */
  predicate ValidationsLawful(c: Corpus) {
    && (forall v | v in c.validations && c.validations[v].disposition == Accepted ::
          c.validations[v].authorityDecision != None && |c.validations[v].failureCodes| == 0)
    && (forall v, w | v in c.validations && w in c.validations && v != w ::
          (c.validations[v].candidate, c.validations[v].candidateVersion)
          != (c.validations[w].candidate, c.validations[w].candidateVersion))
  }

  /** A logical document occupies pages from 1 on and rests on a stored validation: accepted,
    * decided by an authority and free of failures. */
  predicate Traced(c: Corpus, o: Occurrence) {
    && 1 <= o.startPage && o.startPage <= o.endPage
    && o.validation in c.validations
    && c.validations[o.validation].disposition == Accepted
    && c.validations[o.validation].authorityDecision != None
    && |c.validations[o.validation].failureCodes| == 0
  }

  predicate HeadersLawful(c: Corpus) {
    forall key | key in c.headers ::
      var h := c.headers[key];
      && key.version >= 1
      && h.discovered >= h.admitted >= 0
      && h.expectedPages >= h.readablePages >= h.validatedPages >= 0
      && h.acceptedDocuments >= 0 && h.unresolvedItems >= 0
      && (h.outcome == Complete ==> h.unresolvedItems == 0)
  }

  /** Members belong to stored snapshots, member documents are stored, and an unresolved item has
    * one membership. */
  predicate MembersLawful(c: Corpus) {
    && (forall m | m in c.members :: m.snapshot in c.headers)
    && (forall m | m in c.members && m.kind == Occurrences :: m.item in c.occurrences)
    && (forall m, n | m in c.members && n in c.members && m.kind == UnresolvedItems && n.kind == UnresolvedItems ::
          m.item == n.item ==> m == n)
  }

  predicate CorpusLawful(c: Corpus) {
    && ValidationsLawful(c) && (forall o | o in c.occurrences :: Traced(c, c.occurrences[o]))
    && HeadersLawful(c) && MembersLawful(c)
  }

  predicate Stored(c: Corpus, row: Row) {
    match row
    case ValidationRow(id, v) => id in c.validations && c.validations[id] == v
    case OccurrenceRow(id, o) => id in c.occurrences && c.occurrences[id] == o
    case HeaderRow(key, h) => key in c.headers && c.headers[key] == h
    case MemberRow(m) => m in c.members
  }

  predicate KeyTaken(c: Corpus, row: Row) {
    match row
    case ValidationRow(id, _) => id in c.validations
    case OccurrenceRow(id, _) => id in c.occurrences
    case HeaderRow(key, _) => key in c.headers
    case MemberRow(m) => m in c.members
  }

  lemma {:induction false} AddStores(c: Corpus, row: Row, r: Row)
    requires !KeyTaken(c, row)
    ensures Stored(Add(c, row), r) <==> Stored(c, r) || r == row
  {
  }

  lemma {:induction false} RemoveDrops(c: Corpus, row: Row, r: Row)
    requires Stored(c, row)
    ensures Stored(Removed(c, row), r) <==> Stored(c, r) && r != row
  {
  }

  // ----- admitted, or deleted, exactly when the promises still hold -----

  lemma {:induction false} ValidationAdmitted(c: Corpus, id: Id, v: Validation)
    requires CorpusLawful(c) && id !in c.validations
    ensures var row := ValidationRow(id, v);
            Admits(c, Active, row) <==> CorpusLawful(Add(c, row))
  {
    var c' := Add(c, ValidationRow(id, v));
    assert id in c'.validations && c'.validations[id] == v;
    assert forall w | w in c.validations :: w in c'.validations && c'.validations[w] == c.validations[w];
    assert forall o | o in c.occurrences :: Traced(c, c.occurrences[o]) ==> Traced(c', c.occurrences[o]);
  }

  lemma {:induction false} OccurrenceAdmitted(c: Corpus, id: Id, o: Occurrence)
    requires CorpusLawful(c) && id !in c.occurrences
    ensures var row := OccurrenceRow(id, o);
            Admits(c, Active, row) <==> CorpusLawful(Add(c, row))
  {
    var c' := Add(c, OccurrenceRow(id, o));
    assert id in c'.occurrences && c'.occurrences[id] == o;
    assert forall p: Occurrence :: Traced(c, p) <==> Traced(c', p);
  }

  lemma {:induction false} HeaderAdmitted(c: Corpus, key: SnapshotKey, h: Header)
    requires CorpusLawful(c) && key !in c.headers
    ensures var row := HeaderRow(key, h);
            Admits(c, Active, row) <==> CorpusLawful(Add(c, row))
  {
    var c' := Add(c, HeaderRow(key, h));
    assert key in c'.headers && c'.headers[key] == h;
    assert forall p: Occurrence :: Traced(c, p) <==> Traced(c', p);
  }

  lemma {:induction false} MemberAdmitted(c: Corpus, m: Member)
    requires CorpusLawful(c) && m !in c.members
    ensures Admits(c, Active, MemberRow(m)) <==> CorpusLawful(Add(c, MemberRow(m)))
  {
    var c' := Add(c, MemberRow(m));
    assert m in c'.members;
    assert forall p: Occurrence :: Traced(c, p) <==> Traced(c', p);
  }

  lemma {:induction false} AdmittedKeyIsFree(c: Corpus, state: State, row: Row)
    requires Admits(c, state, row)
    ensures !KeyTaken(c, row)
  {
  }

  lemma {:induction false} StateFences(c: Corpus, state: State, row: Row)
    ensures Admits(c, state, row) <==> (state == Provisioning || state == Active) && Admits(c, Active, row)
  {
  }

  /** A row is admitted exactly when the workspace is PROVISIONING or ACTIVE, its key is free and
    * the tables with it keep every promise. */
  lemma {:induction false} AdmittedIffLawful(c: Corpus, state: State, row: Row)
    requires CorpusLawful(c)
    ensures Admits(c, state, row) <==>
              (state == Provisioning || state == Active) && !KeyTaken(c, row) && CorpusLawful(Add(c, row))
  {
    hide Admits, CorpusLawful, Add;
    StateFences(c, state, row);
    if Admits(c, Active, row) {
      AdmittedKeyIsFree(c, Active, row);
    }
    if !KeyTaken(c, row) {
      match row
      case ValidationRow(id, v) => ValidationAdmitted(c, id, v);
      case OccurrenceRow(id, o) => OccurrenceAdmitted(c, id, o);
      case HeaderRow(key, h) => HeaderAdmitted(c, key, h);
      case MemberRow(m) => MemberAdmitted(c, m);
    }
  }

  /** A stored row may be deleted exactly when the tables without it keep every promise. */
  lemma {:induction false} InUseIffUnlawful(c: Corpus, row: Row)
    requires CorpusLawful(c) && KeyTaken(c, row)
    ensures InUse(c, row) <==> !CorpusLawful(Removed(c, row))
  {
    var c' := Removed(c, row);
    match row
    case ValidationRow(id, _) =>
      if o :| o in c.occurrences && c.occurrences[o].validation == id {
        assert o in c'.occurrences && !Traced(c', c'.occurrences[o]);
      } else {
        forall o | o in c'.occurrences
          ensures Traced(c', c'.occurrences[o])
        {
          assert Traced(c, c.occurrences[o]);
        }
      }
    case _ =>
      assert forall p: Occurrence :: Traced(c, p) <==> Traced(c', p);
  }

  /** The executor's delete: it goes through exactly when no other table refers to the row and the
    * promises are kept. */
  lemma {:induction false} DeletedIffLawful(c: Corpus, pinned: bool, row: Row)
    requires CorpusLawful(c) && KeyTaken(c, row)
    ensures Next(c, ExecutorDelete(pinned, row)) ==
            if !pinned && CorpusLawful(Removed(c, row)) then Removed(c, row) else c
  {
    hide InUse, CorpusLawful;
    InUseIffUnlawful(c, row);
  }

  lemma {:induction false} AbsentRemoved(c: Corpus, row: Row)
    requires !KeyTaken(c, row)
    ensures Removed(c, row) == c
  {
    match row
    case ValidationRow(id, _) => assert c.validations - {id} == c.validations;
    case OccurrenceRow(id, _) => assert c.occurrences - {id} == c.occurrences;
    case HeaderRow(key, _) => assert c.headers - {key} == c.headers;
    case MemberRow(m) => assert c.members - {m} == c.members;
  }

  lemma {:induction false} AddAllLawful(c: Corpus, state: State, rows: seq<Row>)
    requires CorpusLawful(c) && AddAll(c, state, rows).Some?
    ensures CorpusLawful(AddAll(c, state, rows).value)
    decreases |rows|
  {
    hide CorpusLawful, Admits, Add;
    if rows != [] {
      var n := |rows| - 1;
      AddAllLawful(c, state, rows[..n]);
      AdmittedIffLawful(AddAll(c, state, rows[..n]).value, state, rows[n]);
    }
  }

  lemma {:induction false} StepLawful(c: Corpus, step: Step)
    requires CorpusLawful(c)
    ensures CorpusLawful(Next(c, step))
  {
    hide CorpusLawful, InUse, Removed, AddAll;
    match step
    case Transaction(state, rows) =>
      if AddAll(c, state, rows).Some? {
        AddAllLawful(c, state, rows);
      }
    case ExecutorDelete(pinned, row) =>
      if KeyTaken(c, row) {
        DeletedIffLawful(c, pinned, row);
      } else {
        AbsentRemoved(c, row);
      }
  }

  /** Whatever is committed and whatever the executor deletes, the tables keep their promises. */
  lemma {:induction false} AlwaysLawful(steps: seq<Step>)
    ensures CorpusLawful(Exec(EmptyCorpus, steps))
    decreases |steps|
  {
    hide Next;
    if steps != [] {
      AlwaysLawful(steps[..|steps| - 1]);
      StepLawful(Exec(EmptyCorpus, steps[..|steps| - 1]), steps[|steps| - 1]);
    }
  }

  /** So every document of every snapshot traces to its accepted, authority-backed and failure-free
    * validation. */
  lemma {:induction false} MembersAreTraced(steps: seq<Step>)
    ensures var c := Exec(EmptyCorpus, steps);
            && (forall o | o in c.occurrences :: Traced(c, c.occurrences[o]))
            && (forall m | m in c.members && m.kind == Occurrences ::
                  m.item in c.occurrences && Traced(c, c.occurrences[m.item]))
  {
    AlwaysLawful(steps);
  }
}
