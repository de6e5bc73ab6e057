/** How the evidence behind repeated stages relates to the visits: no manifest, report or
  * export serves twice, and a reset is reached only through the whole chain of proofs.
  */
module LifecycleFreshness {
  import opened Wrappers
  import opened LifecycleStates
  import opened LifecycleEvidence
  import opened LifecycleTransition
  import opened LifecycleRuns
  import opened LifecycleShape
  import opened LifecycleWitness

  function Entries(history: seq<HistoryRow>, target: State): set<int> {
    set k | 0 <= k < |history| && history[k].newState == target
  }

  predicate Injective(m: map<int, Id>) {
    forall i, j | i in m && j in m && i != j :: m[i] != m[j]
  }

  lemma {:induction false} InjectionCounts(m: map<int, Id>, range: set<Id>)
    requires Injective(m) && forall i | i in m :: m[i] in range
    ensures |m| <= |range|
    decreases |m|
  {
    if |m| > 0 {
      var i := AnyOf(m.Keys);
      var rest := m - {i};
      assert m.Keys == rest.Keys + {i} && |m.Keys| == |rest.Keys| + 1;
      InjectionCounts(rest, range - {m[i]});
    }
  }

  function VerifiedManifests(e: Evidence): set<Id> {
    set f | f in e.manifests && e.manifests[f].result.Verified?
  }

  function VerifiedReports(e: Evidence): set<Id> {
    set f | f in e.reports && e.reports[f].outcome.Verified?
  }

  function VerifiedExports(e: Evidence): set<Id> {
    set x | x in e.exports && e.exports[x].state.Verified?
  }

  /** A verified manifest tagged with the version of row `k`, stored at the entry and still. */
  predicate ManifestServes(atEntry: Evidence, e: Evidence, history: seq<HistoryRow>, k: int, f: Id) {
    && 0 <= k < |history| && f in VerifiedManifests(atEntry) && f in VerifiedManifests(e)
    && e.manifests[f].lifecycleVersion == history[k].version - 1
  }

  /** A verified report, likewise. */
  predicate ReportServes(atEntry: Evidence, e: Evidence, history: seq<HistoryRow>, k: int, f: Id) {
    && 0 <= k < |history| && f in VerifiedReports(atEntry) && f in VerifiedReports(e)
    && e.reports[f].lifecycleVersion == history[k].version - 1
  }

  /** A verified export tagged with the workspace revision at row `k`, likewise. */
  predicate ExportServes(atEntry: Evidence, e: Evidence, history: seq<HistoryRow>, k: int, x: Id) {
    && 0 <= k < |history| && x in VerifiedExports(atEntry) && x in VerifiedExports(e)
    && e.exports[x].workspaceRevision == RevisionAt(history, k)
  }

  /** The evidence stored when each row of the log was written. */
  ghost predicate AtEntry(s: Store, events: seq<Event>, atEntry: map<int, Evidence>) {
    forall k | 0 <= k < |Exec(s, events).history| ::
      && k in atEntry
      && exists i :: EntersThroughGate(s, events, i, k) && atEntry[k] == Exec(s, events[..i]).evidence
  }

  /** Each entry to FROZEN has a manifest of its own. */
  predicate ManifestsServe(
      e: Evidence, atEntry: map<int, Evidence>, history: seq<HistoryRow>, proof: map<int, Id>) {
    && proof.Keys == Entries(history, Frozen) && Injective(proof)
    && forall k | k in proof :: k in atEntry && ManifestServes(atEntry[k], e, history, k, proof[k])
  }

  /** Each entry to FINALIZED has a report of its own. */
  predicate ReportsServe(
      e: Evidence, atEntry: map<int, Evidence>, history: seq<HistoryRow>, proof: map<int, Id>) {
    && proof.Keys == Entries(history, Finalized) && Injective(proof)
    && forall k | k in proof :: k in atEntry && ReportServes(atEntry[k], e, history, k, proof[k])
  }

  /** Each entry to EXPORTED has an export of its own. */
  predicate ExportsServe(
      e: Evidence, atEntry: map<int, Evidence>, history: seq<HistoryRow>, proof: map<int, Id>) {
    && proof.Keys == Entries(history, Exported) && Injective(proof)
    && forall k | k in proof :: k in atEntry && ExportServes(atEntry[k], e, history, k, proof[k])
  }

  lemma {:induction false} ProofBehind(e: Evidence, history: seq<HistoryRow>, k: nat)
    requires Chained(history) && Witnessed(e, history) && k < |history|
    ensures history[k].version == k + 2
    ensures history[k].newState.Frozen? ==> FreezeProved(e, k + 1)
    ensures history[k].newState.Finalized? ==> ReportProved(e, k + 1)
    ensures history[k].newState.Exported? ==> ExportProved(e, RevisionAt(history, k))
    ensures history[k].newState.Archived? ==> ArchiveProved(e)
  {
    ChainedAt(history, k);
    assert Persisted(e, history[k], RevisionAt(history, k));
  }

  // ----- the proof found at each entry -----

  /** What the gate of row `k` found, for the three stages whose evidence carries a tag. */
  predicate TaggedProof(atEntry: Evidence, history: seq<HistoryRow>, k: int) {
    && 0 <= k < |history| && history[k].version == k + 2
    && (history[k].newState.Frozen? ==> FreezeProved(atEntry, k + 1))
    && (history[k].newState.Finalized? ==> ReportProved(atEntry, k + 1))
    && (history[k].newState.Exported? ==> ExportProved(atEntry, RevisionAt(history, k)))
  }

  predicate ProofsAtEntry(e: Evidence, atEntry: map<int, Evidence>, history: seq<HistoryRow>) {
    forall k | 0 <= k < |history| ::
      k in atEntry && EvidenceGrows(atEntry[k], e) && TaggedProof(atEntry[k], history, k)
  }

  ghost function ManifestFor(atEntry: Evidence, e: Evidence, history: seq<HistoryRow>, k: int): (f: Id)
    requires EvidenceGrows(atEntry, e) && TaggedProof(atEntry, history, k) && history[k].newState.Frozen?
    ensures ManifestServes(atEntry, e, history, k, f)
  {
    var f :| f in atEntry.manifests && atEntry.manifests[f].lifecycleVersion == k + 1
             && atEntry.manifests[f].result.Verified?;
    f
  }

  ghost function ReportFor(atEntry: Evidence, e: Evidence, history: seq<HistoryRow>, k: int): (f: Id)
    requires EvidenceGrows(atEntry, e) && TaggedProof(atEntry, history, k) && history[k].newState.Finalized?
    ensures ReportServes(atEntry, e, history, k, f)
  {
    var f :| f in atEntry.reports && atEntry.reports[f].lifecycleVersion == k + 1
             && atEntry.reports[f].outcome.Verified?;
    f
  }

  ghost function ExportFor(atEntry: Evidence, e: Evidence, history: seq<HistoryRow>, k: int): (x: Id)
    requires EvidenceGrows(atEntry, e) && TaggedProof(atEntry, history, k) && history[k].newState.Exported?
    ensures ExportServes(atEntry, e, history, k, x)
  {
    var x :| x in atEntry.exports && atEntry.exports[x].workspaceRevision == RevisionAt(history, k)
             && atEntry.exports[x].state.Verified?;
    x
  }

  lemma {:induction false} VersionsDiffer(history: seq<HistoryRow>, i: nat, j: nat)
    requires Chained(history) && i < |history| && j < |history| && i != j
    ensures history[i].version != history[j].version
  {
    ChainedAt(history, i);
    ChainedAt(history, j);
  }

  lemma {:induction false} AssignManifests(e: Evidence, atEntry: map<int, Evidence>, history: seq<HistoryRow>)
    returns (proof: map<int, Id>)
    requires Chained(history) && ProofsAtEntry(e, atEntry, history)
    ensures ManifestsServe(e, atEntry, history, proof)
    ensures |Entries(history, Frozen)| <= |VerifiedManifests(e)|
  {
    hide EvidenceGrows, TaggedProof, VerifiedManifests, Chained;
    proof := map k | k in Entries(history, Frozen) :: ManifestFor(atEntry[k], e, history, k);
    assert proof.Keys == Entries(history, Frozen);
    forall i, j | i in proof && j in proof && i != j
      ensures proof[i] != proof[j]
    {
      VersionsDiffer(history, i, j);
    }
    InjectionCounts(proof, VerifiedManifests(e));
  }

  lemma {:induction false} AssignReports(e: Evidence, atEntry: map<int, Evidence>, history: seq<HistoryRow>)
    returns (proof: map<int, Id>)
    requires Chained(history) && ProofsAtEntry(e, atEntry, history)
    ensures ReportsServe(e, atEntry, history, proof)
    ensures |Entries(history, Finalized)| <= |VerifiedReports(e)|
  {
    hide EvidenceGrows, TaggedProof, VerifiedReports, Chained;
    proof := map k | k in Entries(history, Finalized) :: ReportFor(atEntry[k], e, history, k);
    assert proof.Keys == Entries(history, Finalized);
    forall i, j | i in proof && j in proof && i != j
      ensures proof[i] != proof[j]
    {
      VersionsDiffer(history, i, j);
    }
    InjectionCounts(proof, VerifiedReports(e));
  }

  /** An export is tagged only with the workspace revision, but each revision is exported at most once. */
  lemma {:induction false} AssignExports(e: Evidence, atEntry: map<int, Evidence>, history: seq<HistoryRow>)
    returns (proof: map<int, Id>)
    requires Chained(history) && ProofsAtEntry(e, atEntry, history)
    ensures ExportsServe(e, atEntry, history, proof)
    ensures |Entries(history, Exported)| <= |VerifiedExports(e)|
  {
    hide EvidenceGrows, TaggedProof, VerifiedExports, Chained;
    proof := map k | k in Entries(history, Exported) :: ExportFor(atEntry[k], e, history, k);
    assert proof.Keys == Entries(history, Exported);
    forall i, j | i in proof && j in proof && i != j
      ensures proof[i] != proof[j]
    {
      ExportsInDistinctEpochs(history, if i < j then i else j, if i < j then j else i);
    }
    InjectionCounts(proof, VerifiedExports(e));
  }

  /** Event `i` writes row `k` through its open gate, and the evidence it found is still stored. */
  ghost predicate EntryKept(s: Store, events: seq<Event>, i: int, k: int) {
    && EntersThroughGate(s, events, i, k)
    && EvidenceGrows(Exec(s, events[..i]).evidence, Exec(s, events).evidence)
  }

  ghost function EntryOf(creation: Creation, events: seq<Event>, k: int): (i: int)
    requires 0 <= k < |Exec(Initial(creation), events).history|
    ensures EntryKept(Initial(creation), events, i, k)
  {
    assert exists i :: EntryKept(Initial(creation), events, i, k) by {
      var i := EveryRowPassedItsGate(creation, events, k);
      assert EntryKept(Initial(creation), events, i, k);
    }
    var i :| EntryKept(Initial(creation), events, i, k);
    i
  }

  lemma {:induction false} EntryIsTagged(s: Store, events: seq<Event>, i: int, k: int)
    requires EntryKept(s, events, i, k)
    ensures 0 <= i < |events| && 0 <= k < |Exec(s, events).history| && EntersThroughGate(s, events, i, k)
    ensures var atEntry := Exec(s, events[..i]).evidence;
            EvidenceGrows(atEntry, Exec(s, events).evidence) && TaggedProof(atEntry, Exec(s, events).history, k)
  {
  }

  ghost function EvidenceAt(creation: Creation, events: seq<Event>, k: int): (atEntry: Evidence)
    requires 0 <= k < |Exec(Initial(creation), events).history|
    ensures var s := Initial(creation);
            && TaggedProof(atEntry, Exec(s, events).history, k)
            && EvidenceGrows(atEntry, Exec(s, events).evidence)
            && exists i :: EntersThroughGate(s, events, i, k) && atEntry == Exec(s, events[..i]).evidence
  {
    var i := EntryOf(creation, events, k);
    EntryIsTagged(Initial(creation), events, i, k);
    Exec(Initial(creation), events[..i]).evidence
  }

  lemma {:induction false} EvidenceAtEntries(creation: Creation, events: seq<Event>)
    returns (atEntry: map<int, Evidence>)
    ensures AtEntry(Initial(creation), events, atEntry)
    ensures var s := Exec(Initial(creation), events);
            ProofsAtEntry(s.evidence, atEntry, s.history)
  {
    hide EntersThroughGate, TaggedProof, EvidenceGrows, Exec;
    atEntry := map k | 0 <= k < |Exec(Initial(creation), events).history| :: EvidenceAt(creation, events, k);
  }

  /** In every reachable store no manifest, report or export has served two visits, and each was
    * stored when its visit began. */
  lemma {:induction false} EvidenceIsFresh(creation: Creation, events: seq<Event>)
    returns (atEntry: map<int, Evidence>, manifests: map<int, Id>, reports: map<int, Id>, exports: map<int, Id>)
    ensures AtEntry(Initial(creation), events, atEntry)
    ensures var s := Exec(Initial(creation), events);
            && ManifestsServe(s.evidence, atEntry, s.history, manifests)
            && ReportsServe(s.evidence, atEntry, s.history, reports)
            && ExportsServe(s.evidence, atEntry, s.history, exports)
    ensures var s := Exec(Initial(creation), events);
            && |Entries(s.history, Frozen)| <= |VerifiedManifests(s.evidence)|
            && |Entries(s.history, Finalized)| <= |VerifiedReports(s.evidence)|
            && |Entries(s.history, Exported)| <= |VerifiedExports(s.evidence)|
  {
    var s := Exec(Initial(creation), events);
    ChainedRun(creation, events);
    atEntry := EvidenceAtEntries(creation, events);
    hide Exec, AtEntry, ProofsAtEntry, Chained;
    hide ManifestsServe, ReportsServe, ExportsServe;
    manifests := AssignManifests(s.evidence, atEntry, s.history);
    reports := AssignReports(s.evidence, atEntry, s.history);
    exports := AssignExports(s.evidence, atEntry, s.history);
  }

  // ----- the road to a reset -----

  lemma {:induction false} FindLastActive(history: seq<HistoryRow>) returns (a: nat)
    requires Chained(history) && history != []
    ensures LastActive(history, a)
    decreases |history|
  {
    var n := |history| - 1;
    if history[n].newState.Active? {
      a := n;
    } else {
      a := FindLastActive(history[..n]);
      assert forall i | 0 <= i < n :: history[..n][i] == history[i];
    }
  }

  lemma {:induction false} NoReopenSince(history: seq<HistoryRow>, a: nat, k: nat)
    requires LastActive(history, a) && a < k <= |history|
    ensures ReopenCount(history[..k]) == ReopenCount(history)
    decreases |history|
  {
    var n := |history| - 1;
    if k <= n {
      assert history[..n][..k] == history[..k];
      NoReopenSince(history[..n], a, k);
    } else {
      assert history[..k] == history;
    }
  }

  /** From row `a` the log runs through the whole chain, and each gate's proof is stored. */
  predicate ChainProved(e: Evidence, history: seq<HistoryRow>, a: nat) {
    && PassedChain(history, a, |CHAIN|)
    && FreezeProved(e, history[a + 2].version - 1)
    && ReportProved(e, history[a + 4].version - 1)
    && ExportProved(e, 1 + ReopenCount(history))
    && ArchiveProved(e)
  }

  lemma {:induction false} ChainIsProved(e: Evidence, history: seq<HistoryRow>, a: nat)
    requires Chained(history) && Witnessed(e, history) && LastActive(history, a) && PassedChain(history, a, |CHAIN|)
    ensures ChainProved(e, history, a)
  {
    assert history[a + 1 + 1].newState == CHAIN[1] && history[a + 1 + 3].newState == CHAIN[3];
    assert history[a + 1 + 5].newState == CHAIN[5] && history[a + 1 + 7].newState == CHAIN[7];
    NoReopenSince(history, a, a + 6);
    ProofBehind(e, history, a + 2);
    ProofBehind(e, history, a + 4);
    ProofBehind(e, history, a + 6);
    ProofBehind(e, history, a + 8);
  }

  /** A verified package whose verification found every item, nothing else, and all readable. */
  predicate CompleteArchive(e: Evidence) {
    exists v | v in e.verifications ::
      var check := e.verifications[v];
      && check.outcome.Verified? && check.readable
      && check.expected == check.observed && check.missing == 0 && check.extra == 0 && check.changed == 0
      && check.package in e.packages && e.packages[check.package].state.Verified?
  }

  lemma {:induction false} ArchiveIsComplete(e: Evidence)
    requires Constraints(e) && ArchiveProved(e)
    ensures CompleteArchive(e)
  {
    var v :| v in e.verifications && e.verifications[v].outcome.Verified? && e.verifications[v].package in e.packages
             && e.packages[e.verifications[v].package].state.Verified?;
    assert VerificationChecks(e.verifications[v]);
  }

  lemma {:induction false} EnteredByGate(creation: Creation, events: seq<Event>, k: nat)
    requires k < |Exec(Initial(creation), events).history|
    ensures EnteredThroughGate(Initial(creation), events, k)
  {
    var i := EveryRowPassedItsGate(creation, events, k);
  }

  /** A workspace in RESET_AUTHORIZED has, since it was last ACTIVE, passed the nine states of
    * the chain in order, each through its open gate, and the proofs are still stored. */
  lemma {:induction false} RoadToReset(creation: Creation, events: seq<Event>) returns (a: nat)
    requires Exec(Initial(creation), events).row.state.ResetAuthorized?
    ensures var s := Exec(Initial(creation), events);
            && LastActive(s.history, a) && ChainProved(s.evidence, s.history, a)
            && CompleteArchive(s.evidence)
    ensures forall k | a < k <= a + |CHAIN| :: EnteredThroughGate(Initial(creation), events, k)
  {
    hide ArchiveProved, EntersThroughGate, EnteredThroughGate;
    var s := Exec(Initial(creation), events);
    ChainedRun(creation, events);
    a := FindLastActive(s.history);
    ChainForced(s.history, a);
    WitnessedRun(creation, events);
    ChainIsProved(s.evidence, s.history, a);
    assert Constraints(s.evidence) by { Reachable(creation, events); }
    ArchiveIsComplete(s.evidence);
    forall k | a < k <= a + |CHAIN|
      ensures EnteredThroughGate(Initial(creation), events, k)
    {
      EnteredByGate(creation, events, k);
    }
  }
}
