/** Version tables with a link to the version superseded: workspace facts, candidates,
  * boundary candidates, audit actions and audit classifications have this one shape.
  */
module Supersession {
  import opened Wrappers
  import opened LifecycleStates

  datatype Key = Key(id: int, version: int)
  datatype Version = Version(supersedes: Option<int>, digest: string)

  type Table = map<Key, Version>

  /** Primary key, CHECKs and the foreign key from a version to the one it supersedes. */
  predicate Accepts(t: Table, key: Key, v: Version) {
    && key !in t && key.version >= 1
    && (v.supersedes.Some? ==> v.supersedes.value < key.version && Key(key.id, v.supersedes.value) in t)
  }

  /** ON DELETE RESTRICT of the same foreign key. */
  predicate Superseded(t: Table, key: Key) {
    exists k | k in t :: k.id == key.id && t[k].supersedes == Some(key.version)
  }

  /** `pinned` says that a row of another table refers to the deleted one. */
  datatype Change =
    | Insert(state: State, key: Key, version: Version)
    | Update(key: Key, version: Version)
    | Delete(executor: bool, pinned: bool, key: Key)

  function Changed(t: Table, c: Change): Table {
    match c
    case Insert(state, key, v) => if FenceAdmits(state, false) && Accepts(t, key, v) then t[key := v] else t
    case Update(key, v) => t
    case Delete(executor, pinned, key) =>
      if executor && !pinned && !Superseded(t, key) then t - {key} else t
  }

  function Exec(t: Table, changes: seq<Change>): Table {
    if changes == [] then t
    else Changed(Exec(t, changes[..|changes| - 1]), changes[|changes| - 1])
  }

  /** The table under its triggers. */
  class VersionTable {
    var rows: Table

    constructor ()
      ensures rows == map[]
    {
      rows := map[];
    }

    method InsertVersion(state: State, key: Key, v: Version) returns (accepted: bool)
      modifies this
      ensures rows == Changed(old(rows), Insert(state, key, v))
      ensures accepted <==> key !in old(rows) && key in rows
    {
      if !Writable(state) {
        return false;
      }
      if key in rows || key.version < 1 {
        return false;
      }
      if v.supersedes.Some? {
        if v.supersedes.value >= key.version || Key(key.id, v.supersedes.value) !in rows {
          return false;
        }
      }
      rows := rows[key := v];
      return true;
    }

    method UpdateVersion(key: Key, v: Version) returns (accepted: bool)
      modifies this
      ensures rows == Changed(old(rows), Update(key, v))
      ensures !accepted
    {
      return false;
    }

    method DeleteVersion(executor: bool, pinned: bool, key: Key) returns (accepted: bool)
      modifies this
      ensures rows == Changed(old(rows), Delete(executor, pinned, key))
      ensures accepted ==> key !in rows
    {
      if !executor || pinned || Superseded(rows, key) {
        return false;
      }
      rows := rows - {key};
      return true;
    }
  }

  // ----- every link leads to a root -----

  predicate Linked(t: Table, key: Key)
    requires key in t
  {
    && key.version >= 1
    && (t[key].supersedes.Some? ==>
          t[key].supersedes.value < key.version && Key(key.id, t[key].supersedes.value) in t)
  }

  predicate WellFounded(t: Table) {
    forall key | key in t :: Linked(t, key)
  }

  /** A version is stored exactly when the workspace is PROVISIONING or ACTIVE, its key is new and
    * no link of the larger table dangles or rises. */
  lemma {:induction false} InsertKeepsLinks(t: Table, state: State, key: Key, v: Version)
    requires WellFounded(t)
    ensures Changed(t, Insert(state, key, v)) ==
            if (state == Provisioning || state == Active) && key !in t && WellFounded(t[key := v])
            then t[key := v] else t
  {
    var t' := t[key := v];
    assert key in t' && t'[key] == v;
    assert forall k | k in t && k != key :: t'[k] == t[k];
    if key !in t && Linked(t', key) {
      forall k | k in t'
        ensures Linked(t', k)
      {
        if k != key {
          assert Linked(t, k);
        }
      }
    }
  }

  /** A version is deleted exactly when the executor asks, no other table refers to it and no link
    * of the smaller table dangles; nothing else takes a version away or changes it. */
  lemma {:induction false} DeleteKeepsLinks(t: Table, executor: bool, pinned: bool, key: Key)
    requires WellFounded(t)
    ensures Changed(t, Delete(executor, pinned, key)) ==
            if executor && !pinned && WellFounded(t - {key}) then t - {key} else t
  {
    var t' := t - {key};
    if k :| k in t && k.id == key.id && t[k].supersedes == Some(key.version) {
      assert Linked(t, k);
      assert k in t' && !Linked(t', k);
    } else {
      forall k | k in t'
        ensures Linked(t', k)
      {
        assert Linked(t, k);
      }
    }
  }

  lemma {:induction false} StepWellFounded(t: Table, c: Change)
    requires WellFounded(t)
    ensures WellFounded(Changed(t, c))
  {
    hide Changed, WellFounded;
    match c
    case Insert(state, key, v) => InsertKeepsLinks(t, state, key, v);
    case Update(key, v) => assert Changed(t, c) == t by { UpdateRefused(t, key, v); }
    case Delete(executor, pinned, key) => DeleteKeepsLinks(t, executor, pinned, key);
  }

  lemma {:induction false} UpdateRefused(t: Table, key: Key, v: Version)
    ensures Changed(t, Update(key, v)) == t
  {
  }

  lemma {:induction false} AlwaysWellFounded(changes: seq<Change>)
    ensures WellFounded(Exec(map[], changes))
  {
    if changes != [] {
      AlwaysWellFounded(changes[..|changes| - 1]);
      StepWellFounded(Exec(map[], changes[..|changes| - 1]), changes[|changes| - 1]);
    }
  }

  /** The versions met when following the link from `key`, newest first. */
  function Chain(t: Table, key: Key): (chain: seq<int>)
    requires WellFounded(t) && key in t
    decreases key.version
  {
    assert Linked(t, key);
    if t[key].supersedes.None? then [key.version]
    else [key.version] + Chain(t, Key(key.id, t[key].supersedes.value))
  }

  /** The chain starts at the version, strictly decreases through stored versions, ends at one
    * that supersedes nothing, and is no longer than the version number. */
  lemma {:induction false} ChainReachesRoot(t: Table, key: Key)
    requires WellFounded(t) && key in t
    ensures var chain := Chain(t, key);
            && 1 <= |chain| <= key.version && chain[0] == key.version
            && (forall i | 0 <= i < |chain| :: Key(key.id, chain[i]) in t)
            && (forall i | 0 <= i < |chain| - 1 :: t[Key(key.id, chain[i])].supersedes == Some(chain[i + 1]))
            && (forall i | 0 <= i < |chain| - 1 :: chain[i] > chain[i + 1])
            && t[Key(key.id, chain[|chain| - 1])].supersedes == None
    decreases key.version
  {
    assert Linked(t, key);
    if t[key].supersedes.Some? {
      ChainReachesRoot(t, Key(key.id, t[key].supersedes.value));
    }
  }

  /** While a version stays in the table, its whole ancestry stays as it was. */
  lemma {:induction false} AncestryKept(t: Table, c: Change, key: Key)
    requires WellFounded(t) && key in t && key in Changed(t, c)
    ensures WellFounded(Changed(t, c))
    ensures Chain(Changed(t, c), key) == Chain(t, key)
    decreases key.version
  {
    StepWellFounded(t, c);
    assert Linked(t, key);
    if t[key].supersedes.Some? {
      AncestryKept(t, c, Key(key.id, t[key].supersedes.value));
    }
  }

  /** So over any run in which nobody deletes the version itself, its ancestry never changes. */
  lemma {:induction false} AncestryKeptInRun(changes: seq<Change>, more: seq<Change>, key: Key)
    requires forall n | 0 <= n <= |more| :: key in Exec(map[], changes + more[..n])
    ensures key in Exec(map[], changes) && key in Exec(map[], changes + more)
    ensures WellFounded(Exec(map[], changes)) && WellFounded(Exec(map[], changes + more))
    ensures Chain(Exec(map[], changes + more), key) == Chain(Exec(map[], changes), key)
    decreases |more|
  {
    assert more[..0] == [] && changes + [] == changes && more[..|more|] == more;
    assert key in Exec(map[], changes + more[..0]) && key in Exec(map[], changes + more[..|more|]);
    AlwaysWellFounded(changes);
    AlwaysWellFounded(changes + more);
    if more != [] {
      var n := |more| - 1;
      assert forall m | 0 <= m <= n :: more[..n][..m] == more[..m];
      AncestryKeptInRun(changes, more[..n], key);
      assert (changes + more)[..|changes + more| - 1] == changes + more[..n];
      assert Exec(map[], changes + more) == Changed(Exec(map[], changes + more[..n]), more[n]);
      AncestryKept(Exec(map[], changes + more[..n]), more[n], key);
    }
  }

  // ----- exactly when supersession stays linear -----

  /** No two versions of one id supersede the same version. */
  predicate Linear(t: Table) {
    forall j, k | j in t && k in t && j != k && j.id == k.id && t[j].supersedes.Some? ::
      t[j].supersedes != t[k].supersedes
  }

  /** The guard the triggers lack: a version that is inserted supersedes none or one that no
    * stored version supersedes yet. */
  predicate Guarded(t: Table, c: Change) {
    c.Insert? && FenceAdmits(c.state, false) && Accepts(t, c.key, c.version) && c.version.supersedes.Some? ==>
      !Superseded(t, Key(c.key.id, c.version.supersedes.value))
  }

  lemma {:induction false} StepLinearIff(t: Table, c: Change)
    requires Linear(t)
    ensures Linear(Changed(t, c)) <==> Guarded(t, c)
  {
    if !Guarded(t, c) {
      var k :| k in t && k.id == c.key.id && t[k].supersedes == c.version.supersedes;
      var t' := Changed(t, c);
      assert k in t' && c.key in t' && k != c.key && t'[k].supersedes == t'[c.key].supersedes;
    }
  }

  predicate LinearThroughout(changes: seq<Change>) {
    forall n | 0 <= n <= |changes| :: Linear(Exec(map[], changes[..n]))
  }

  predicate GuardedThroughout(changes: seq<Change>) {
    forall n | 0 <= n < |changes| :: Guarded(Exec(map[], changes[..n]), changes[n])
  }

  lemma {:induction false} ThroughoutSnoc(changes: seq<Change>)
    requires changes != []
    ensures var n := |changes| - 1;
            && (LinearThroughout(changes) <==> LinearThroughout(changes[..n]) && Linear(Exec(map[], changes)))
            && (GuardedThroughout(changes) <==>
                  GuardedThroughout(changes[..n]) && Guarded(Exec(map[], changes[..n]), changes[n]))
  {
    hide Linear, Guarded, Exec;
    var n := |changes| - 1;
    assert forall m | 0 <= m <= n :: changes[..n][..m] == changes[..m];
    assert changes[..n + 1] == changes;
  }

  /** A table has been linear all through a run exactly when each insert met the guard. */
  lemma {:induction false} LinearThroughoutIff(changes: seq<Change>)
    ensures LinearThroughout(changes) <==> GuardedThroughout(changes)
  {
    hide Linear, Guarded, Changed;
    if changes == [] {
      EmptyLinear();
    } else {
      var n := |changes| - 1;
      var before := Exec(map[], changes[..n]);
      ThroughoutSnoc(changes);
      LinearThroughoutIff(changes[..n]);
      assert LinearThroughout(changes[..n]) ==> Linear(before) by { assert changes[..n][..n] == changes[..n]; }
      if Linear(before) {
        StepLinearIff(before, changes[n]);
      }
    }
  }

  lemma {:induction false} EmptyLinear()
    ensures Linear(map[])
  {
  }

  /** Without it every superseded version can be superseded once more: the code accepts some
    * insert that forks its chain. */
  lemma {:induction false} SupersededForksAgain(t: Table, state: State, key: Key) returns (fork: Key, v: Version)
    requires Writable(state) && key in t && Superseded(t, key)
    ensures Accepts(t, fork, v) && fork.id == key.id && v.supersedes == Some(key.version)
    ensures !Linear(Changed(t, Insert(state, fork, v)))
  {
    var versions := set k | k in t :: k.version;
    assert forall k | k in t :: k.version in versions;
    fork, v := Key(key.id, Above(versions)), Version(Some(key.version), "sha256:fork");
    var k :| k in t && k.id == key.id && t[k].supersedes == Some(key.version);
    var t' := Changed(t, Insert(state, fork, v));
    assert k in t' && fork in t' && k != fork && t'[k].supersedes == t'[fork].supersedes;
  }
}
