/** Review and finalization of support documents: grants, review decisions, finalized versions. */
module SupportReview {
  import opened Wrappers
  import opened LifecycleStates

  type Id = int
  type Identity = string

  datatype VersionKey = VersionKey(id: Id, version: int)
  datatype Capability = ReviewDocuments | FinalizeDeliverables | OtherCapability(name: string)
  /** `InForce` is the status 'active'. */
  datatype GrantStatus = InForce | Suspended | Revoked | Expired
  datatype ReviewOutcome = Approved | Rejected | NeedsCorrection

  datatype Grant = Grant(
    human: Identity, capability: Capability, status: GrantStatus,
    effectiveFrom: int, effectiveUntil: Option<int>)
  datatype Review = Review(
    candidate: Id, human: Identity, grant: VersionKey, outcome: ReviewOutcome, decidedAt: int)
  datatype Finalized = Finalized(
    candidate: Id, review: Id, finalizer: Identity, grant: VersionKey, finalizedAt: int)

  datatype Tables = Tables(
    grants: map<VersionKey, Grant>, reviews: map<Id, Review>, finals: map<VersionKey, Finalized>)

  const EmptyTables := Tables(map[], map[], map[])

  /** CHECK: the identity is not that of a model, a service or an integration. */
  predicate Human(identity: Identity) {
    !("model:" <= identity) && !("service:" <= identity) && !("integration:" <= identity)
  }

  predicate Holds(g: Grant, who: Identity, capability: Capability, time: int) {
    && g.human == who && g.capability == capability && g.status.InForce?
    && g.effectiveFrom <= time && (g.effectiveUntil.Some? ==> g.effectiveUntil.value > time)
  }

  predicate GrantChecks(key: VersionKey, g: Grant) {
    && key.version >= 1 && Human(g.human)
    && (g.effectiveUntil.Some? ==> g.effectiveUntil.value > g.effectiveFrom)
  }

  /** The trigger of the review table. */
  predicate ReviewAuthority(t: Tables, r: Review) {
    r.grant in t.grants && Holds(t.grants[r.grant], r.human, ReviewDocuments, r.decidedAt)
  }

  /** The trigger of the finalized table. */
  predicate FinalizationAuthority(t: Tables, f: Finalized) {
    && f.review in t.reviews && t.reviews[f.review].outcome.Approved?
    && t.reviews[f.review].human != f.finalizer
    && f.grant in t.grants && Holds(t.grants[f.grant], f.finalizer, FinalizeDeliverables, f.finalizedAt)
  }

  datatype Change =
    | InsertGrant(state: State, grantKey: VersionKey, grant: Grant)
    | InsertReview(state: State, reviewKey: Id, review: Review)
    | InsertFinal(state: State, finalKey: VersionKey, final: Finalized)
    | DeleteGrant(executor: bool, pinned: bool, grantKey: VersionKey)
    | DeleteReview(executor: bool, pinned: bool, reviewKey: Id)
    | DeleteFinal(executor: bool, pinned: bool, finalKey: VersionKey)

  predicate GrantUsed(t: Tables, key: VersionKey) {
    || (exists r | r in t.reviews :: t.reviews[r].grant == key)
    || (exists f | f in t.finals :: t.finals[f].grant == key)
  }

  predicate ReviewUsed(t: Tables, key: Id) {
    exists f | f in t.finals :: t.finals[f].review == key
  }

  /** Rows are inserted behind the fence and the triggers, never updated, and deleted only by
    * the executor when nothing refers to them (`pinned` stands for other tables that do). */
  function Changed(t: Tables, c: Change): Tables {
    match c
    case InsertGrant(state, key, g) =>
      if FenceAdmits(state, false) && key !in t.grants && GrantChecks(key, g)
      then t.(grants := t.grants[key := g]) else t
    case InsertReview(state, key, r) =>
      if FenceAdmits(state, false) && ReviewAuthority(t, r) && key !in t.reviews && Human(r.human)
      then t.(reviews := t.reviews[key := r]) else t
    case InsertFinal(state, key, f) =>
      if FenceAdmits(state, false) && FinalizationAuthority(t, f)
         && key !in t.finals && key.version >= 1 && Human(f.finalizer)
      then t.(finals := t.finals[key := f]) else t
    case DeleteGrant(executor, pinned, key) =>
      if executor && !pinned && !GrantUsed(t, key) then t.(grants := t.grants - {key}) else t
    case DeleteReview(executor, pinned, key) =>
      if executor && !pinned && !ReviewUsed(t, key) then t.(reviews := t.reviews - {key}) else t
    case DeleteFinal(executor, pinned, key) =>
      if executor && !pinned then t.(finals := t.finals - {key}) else t
  }

  function Exec(t: Tables, changes: seq<Change>): Tables {
    if changes == [] then t
    else Changed(Exec(t, changes[..|changes| - 1]), changes[|changes| - 1])
  }

  /** The tables under their triggers. */
  class SupportStore {
    var grants: map<VersionKey, Grant>
    var reviews: map<Id, Review>
    var finals: map<VersionKey, Finalized>

    ghost function Contents(): Tables
      reads this
    {
      Tables(grants, reviews, finals)
    }

    constructor ()
      ensures Contents() == EmptyTables
    {
      grants, reviews, finals := map[], map[], map[];
    }

    method AddGrant(state: State, key: VersionKey, g: Grant) returns (accepted: bool)
      modifies this
      ensures Contents() == Changed(old(Contents()), InsertGrant(state, key, g))
      ensures accepted <==> key !in old(grants) && key in grants
    {
      accepted := Writable(state) && key !in grants && GrantChecks(key, g);
      if accepted {
        grants := grants[key := g];
      }
    }

    method Decide(state: State, key: Id, r: Review) returns (accepted: bool)
      modifies this
      ensures Contents() == Changed(old(Contents()), InsertReview(state, key, r))
      ensures accepted <==> key !in old(reviews) && key in reviews
    {
      if !Writable(state) {
        return false;
      }
      if r.grant !in grants {
        return false;
      }
      var g := grants[r.grant];
      if g.human != r.human || g.capability != ReviewDocuments || !g.status.InForce? || r.decidedAt < g.effectiveFrom {
        return false;
      }
      if g.effectiveUntil.Some? && g.effectiveUntil.value <= r.decidedAt {
        return false;
      }
      if key in reviews || !Human(r.human) {
        return false;
      }
      reviews := reviews[key := r];
      return true;
    }

    method Finalize(state: State, key: VersionKey, f: Finalized) returns (accepted: bool)
      modifies this
      ensures Contents() == Changed(old(Contents()), InsertFinal(state, key, f))
      ensures accepted <==> key !in old(finals) && key in finals
    {
      if !Writable(state) {
        return false;
      }
      if f.review !in reviews {
        return false;
      }
      var reviewer, outcome := reviews[f.review].human, reviews[f.review].outcome;
      if outcome != Approved || reviewer == f.finalizer {
        return false;
      }
      if f.grant !in grants || !Holds(grants[f.grant], f.finalizer, FinalizeDeliverables, f.finalizedAt) {
        return false;
      }
      if key in finals || key.version < 1 || !Human(f.finalizer) {
        return false;
      }
      finals := finals[key := f];
      return true;
    }

    /** The executor's DELETE on one of the three tables. */
    method Remove(c: Change)
      requires c.DeleteGrant? || c.DeleteReview? || c.DeleteFinal?
      modifies this
      ensures Contents() == Changed(old(Contents()), c)
    {
      if !c.executor || c.pinned {
        return;
      }
      match c {
        case DeleteGrant(_, _, key) =>
          if !(exists r | r in reviews :: reviews[r].grant == key)
             && !(exists f | f in finals :: finals[f].grant == key) {
            grants := grants - {key};
          }
        case DeleteReview(_, _, key) =>
          if !(exists f | f in finals :: finals[f].review == key) {
            reviews := reviews - {key};
          }
        case DeleteFinal(_, _, key) =>
          finals := finals - {key};
        case _ =>
      }
    }
  }

  // ----- separation of duty -----

  /** A person's identity: not one that names a model, a service or an integration. */
  ghost predicate Person(who: Identity) {
    forall rest: string :: who != "model:" + rest && who != "service:" + rest && who != "integration:" + rest
  }

  /** The stored grant is one to this person for this capability, with status active, and its
    * validity contains the time. */
  predicate Qualified(t: Tables, key: VersionKey, who: Identity, capability: Capability, time: int) {
    && key in t.grants
    && t.grants[key] ==
       Grant(who, capability, InForce, t.grants[key].effectiveFrom, t.grants[key].effectiveUntil)
    && t.grants[key].effectiveFrom <= time
    && !(t.grants[key].effectiveUntil.Some? && t.grants[key].effectiveUntil.value <= time)
  }

  ghost predicate Issued(key: VersionKey, g: Grant) {
    && 1 <= key.version && Person(g.human)
    && (g.effectiveUntil == None || g.effectiveFrom < g.effectiveUntil.value)
  }

  ghost predicate Reviewed(t: Tables, r: Review) {
    Person(r.human) && Qualified(t, r.grant, r.human, ReviewDocuments, r.decidedAt)
  }

  /** An approved review by another person, each of the two holding the right grant at the time. */
  ghost predicate Separated(t: Tables, f: Finalized) {
    && Person(f.finalizer) && Qualified(t, f.grant, f.finalizer, FinalizeDeliverables, f.finalizedAt)
    && f.review in t.reviews && Reviewed(t, t.reviews[f.review])
    && t.reviews[f.review].outcome == Approved && t.reviews[f.review].human != f.finalizer
  }

  /** What the tables promise about all their rows. */
  ghost predicate DutySeparated(t: Tables) {
    && (forall g | g in t.grants :: Issued(g, t.grants[g]))
    && (forall r | r in t.reviews :: Reviewed(t, t.reviews[r]))
    && (forall f | f in t.finals :: f.version >= 1 && Separated(t, t.finals[f]))
  }

  lemma {:induction false} HumanIsPerson(who: Identity)
    ensures Human(who) <==> Person(who)
  {
    if "model:" <= who {
      assert who == "model:" + who[6..];
    }
    if "service:" <= who {
      assert who == "service:" + who[8..];
    }
    if "integration:" <= who {
      assert who == "integration:" + who[12..];
    }
  }

  lemma {:induction false} HoldsIsQualified(
      t: Tables, key: VersionKey, who: Identity, capability: Capability, time: int)
    ensures key in t.grants && Holds(t.grants[key], who, capability, time) <==> Qualified(t, key, who, capability, time)
  {
  }

  lemma {:induction false} ReviewAuthorityIff(t: Tables, r: Review)
    ensures ReviewAuthority(t, r) && Human(r.human) <==> Reviewed(t, r)
  {
    HumanIsPerson(r.human);
    HoldsIsQualified(t, r.grant, r.human, ReviewDocuments, r.decidedAt);
  }

  lemma {:induction false} FinalizationAuthorityIff(t: Tables, f: Finalized)
    requires DutySeparated(t)
    ensures FinalizationAuthority(t, f) && Human(f.finalizer) <==> Separated(t, f)
  {
    HumanIsPerson(f.finalizer);
    HoldsIsQualified(t, f.grant, f.finalizer, FinalizeDeliverables, f.finalizedAt);
  }

  // ----- a row is admitted, or deleted, exactly when the promises still hold -----

  /** The change is let through when it is the right role's and leaves the promises kept. */
  ghost function Kept(t: Tables, allowed: bool, t': Tables): Tables {
    if allowed && DutySeparated(t') then t' else t
  }

  lemma {:induction false} GrantsKept(t: Tables, state: State, key: VersionKey, g: Grant)
    requires DutySeparated(t)
    ensures Changed(t, InsertGrant(state, key, g)) ==
            Kept(t, (state == Provisioning || state == Active) && key !in t.grants, t.(grants := t.grants[key := g]))
  {
    hide Person, Human;
    HumanIsPerson(g.human);
    var t' := t.(grants := t.grants[key := g]);
    assert key in t'.grants && t'.grants[key] == g;
  }

  lemma {:induction false} ReviewsKept(t: Tables, state: State, key: Id, r: Review)
    requires DutySeparated(t)
    ensures Changed(t, InsertReview(state, key, r)) ==
            Kept(t, (state == Provisioning || state == Active) && key !in t.reviews, t.(reviews := t.reviews[key := r]))
  {
    hide Person, Human, ReviewAuthority, Qualified;
    ReviewAuthorityIff(t, r);
    var t' := t.(reviews := t.reviews[key := r]);
    assert key in t'.reviews && t'.reviews[key] == r;
    QualifiedAlike(t, t', r);
  }

  lemma {:induction false} QualifiedAlike(t: Tables, t': Tables, r: Review)
    requires t'.grants == t.grants
    ensures Reviewed(t', r) <==> Reviewed(t, r)
    ensures forall who: Identity, key, capability, time ::
              Qualified(t', key, who, capability, time) <==> Qualified(t, key, who, capability, time)
  {
  }

  lemma {:induction false} FinalsKept(t: Tables, state: State, key: VersionKey, f: Finalized)
    requires DutySeparated(t)
    ensures Changed(t, InsertFinal(state, key, f)) ==
            Kept(t, (state == Provisioning || state == Active) && key !in t.finals, t.(finals := t.finals[key := f]))
  {
    hide Person, Human, FinalizationAuthority, Qualified;
    FinalizationAuthorityIff(t, f);
    var t' := t.(finals := t.finals[key := f]);
    assert key in t'.finals && t'.finals[key] == f;
    forall r: Review
      ensures Reviewed(t', r) <==> Reviewed(t, r)
    {
      QualifiedAlike(t, t', r);
    }
    SeparatedAlike(t, t', f);
  }

  lemma {:induction false} SeparatedAlike(t: Tables, t': Tables, f: Finalized)
    requires t'.grants == t.grants && t'.reviews == t.reviews
    ensures forall g: Finalized :: Separated(t', g) <==> Separated(t, g)
  {
  }

  /** The tables without the row that a delete names. */
  function Without(t: Tables, c: Change): Tables {
    match c
    case DeleteGrant(_, _, key) => t.(grants := t.grants - {key})
    case DeleteReview(_, _, key) => t.(reviews := t.reviews - {key})
    case DeleteFinal(_, _, key) => t.(finals := t.finals - {key})
    case _ => t
  }

  /** The executor may delete exactly the rows on which no promise rests. */
  lemma {:induction false} DeletesKept(t: Tables, c: Change)
    requires DutySeparated(t) && (c.DeleteGrant? || c.DeleteReview? || c.DeleteFinal?)
    ensures Changed(t, c) == Kept(t, c.executor && !c.pinned, Without(t, c))
  {
    hide DutySeparated, GrantUsed, ReviewUsed;
    match c
    case DeleteGrant(_, _, key) => GrantDeleteKept(t, key);
    case DeleteReview(_, _, key) => ReviewDeleteKept(t, key);
    case DeleteFinal(_, _, key) => FinalDeleteKept(t, key);
  }

  lemma {:induction false} GrantDeleteKept(t: Tables, key: VersionKey)
    requires DutySeparated(t)
    ensures GrantUsed(t, key) <==> !DutySeparated(t.(grants := t.grants - {key}))
  {
    hide Person;
    var t' := t.(grants := t.grants - {key});
    if r :| r in t.reviews && t.reviews[r].grant == key {
      assert r in t'.reviews && !Reviewed(t', t'.reviews[r]);
    } else if f :| f in t.finals && t.finals[f].grant == key {
      assert f in t'.finals && !Separated(t', t'.finals[f]);
    } else {
      forall r | r in t'.reviews
        ensures Reviewed(t', t'.reviews[r])
      {
        assert Reviewed(t, t.reviews[r]);
      }
    }
  }

  lemma {:induction false} ReviewDeleteKept(t: Tables, key: Id)
    requires DutySeparated(t)
    ensures ReviewUsed(t, key) <==> !DutySeparated(t.(reviews := t.reviews - {key}))
  {
    hide Person, Qualified;
    var t' := t.(reviews := t.reviews - {key});
    forall r: Review
      ensures Reviewed(t', r) <==> Reviewed(t, r)
    {
      QualifiedAlike(t, t', r);
    }
    if f :| f in t.finals && t.finals[f].review == key {
      assert f in t'.finals && !Separated(t', t'.finals[f]);
    } else {
      forall f | f in t'.finals
        ensures Separated(t', t'.finals[f])
      {
        assert Separated(t, t.finals[f]);
        QualifiedAlike(t, t', t.reviews[t.finals[f].review]);
      }
    }
  }

  lemma {:induction false} FinalDeleteKept(t: Tables, key: VersionKey)
    requires DutySeparated(t)
    ensures DutySeparated(t.(finals := t.finals - {key}))
  {
    var t' := t.(finals := t.finals - {key});
    forall r: Review
      ensures Reviewed(t', r) <==> Reviewed(t, r)
    {
      QualifiedAlike(t, t', r);
    }
    hide Reviewed, Person, Qualified;
    forall f: Finalized
      ensures Separated(t', f) <==> Separated(t, f)
    {
      SeparatedAlike(t, t', f);
    }
  }

  /** The promises are kept by every change, whoever asks for it. */
  lemma {:induction false} StepSeparated(t: Tables, c: Change)
    requires DutySeparated(t)
    ensures DutySeparated(Changed(t, c))
  {
    hide Changed, DutySeparated;
    match c
    case InsertGrant(state, key, g) => GrantsKept(t, state, key, g);
    case InsertReview(state, key, r) => ReviewsKept(t, state, key, r);
    case InsertFinal(state, key, f) => FinalsKept(t, state, key, f);
    case _ => DeletesKept(t, c);
  }

  /** In every reachable store each finalized document was approved by one qualified human and
    * finalized by another, under two different grants that are both still stored. */
  lemma {:induction false} SeparationOfDuty(changes: seq<Change>)
    ensures var t := Exec(EmptyTables, changes);
            && DutySeparated(t)
            && forall f | f in t.finals ::
                 var reviewer := t.reviews[t.finals[f].review];
                 && reviewer.human != t.finals[f].finalizer && reviewer.grant != t.finals[f].grant
  {
    if changes != [] {
      SeparationOfDuty(changes[..|changes| - 1]);
      StepSeparated(Exec(EmptyTables, changes[..|changes| - 1]), changes[|changes| - 1]);
    }
    var t := Exec(EmptyTables, changes);
    forall f | f in t.finals
      ensures t.reviews[t.finals[f].review].human != t.finals[f].finalizer
      ensures t.reviews[t.finals[f].review].grant != t.finals[f].grant
    {
      assert Separated(t, t.finals[f]);
    }
  }

  /** While a finalized version is stored, no delete can take its review or either grant away. */
  lemma {:induction false} AccountabilityKept(t: Tables, c: Change, f: VersionKey)
    requires DutySeparated(t) && f in t.finals && f in Changed(t, c).finals
    ensures var t' := Changed(t, c);
            var final := t.finals[f];
            && t'.finals[f] == final
            && t'.reviews[final.review] == t.reviews[final.review]
            && t'.grants[final.grant] == t.grants[final.grant]
            && t'.grants[t.reviews[final.review].grant] == t.grants[t.reviews[final.review].grant]
  {
  }

  /** So over any run in which nobody deletes the finalized version itself, the review and the
    * two grants it rests on stay exactly as they are. */
  lemma {:induction false} AccountabilityKeptInRun(t: Tables, changes: seq<Change>, f: VersionKey)
    requires DutySeparated(t) && forall n | 0 <= n <= |changes| :: f in Exec(t, changes[..n]).finals
    ensures f in t.finals && Separated(t, t.finals[f])
    ensures var t' := Exec(t, changes);
            var final := t.finals[f];
            && DutySeparated(t')
            && f in t'.finals && t'.finals[f] == final
            && final.review in t'.reviews && t'.reviews[final.review] == t.reviews[final.review]
            && final.grant in t'.grants && t'.grants[final.grant] == t.grants[final.grant]
            && var reviewGrant := t.reviews[final.review].grant;
            && reviewGrant in t'.grants && t'.grants[reviewGrant] == t.grants[reviewGrant]
    decreases |changes|
  {
    hide Changed, Person, Issued;
    assert changes[..0] == [] && f in Exec(t, changes[..0]).finals;
    if changes != [] {
      var n := |changes| - 1;
      assert changes[..n + 1] == changes && f in Exec(t, changes[..n + 1]).finals;
      assert forall m | 0 <= m <= n :: changes[..n][..m] == changes[..m];
      AccountabilityKeptInRun(t, changes[..n], f);
      StepSeparated(Exec(t, changes[..n]), changes[n]);
      AccountabilityKept(Exec(t, changes[..n]), changes[n], f);
    }
  }
}
