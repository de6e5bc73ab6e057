/** Qualification of native provisions: the single-path canary, the batch with its grouped
  * index, and the manifest of a batch. Qualification itself is an unseen repository call.
  */
module NativeProvision {
  import opened Wrappers

  datatype Artifact = Artifact(
    designation: string, edition: string, artifactId: string, sourceVersion: string, digest: string)
  datatype Fragment = Fragment(path: string, text: string)
  datatype Provision = Provision(
    id: string, version: int, pages: seq<int>, criticalTokens: seq<string>,
    verificationFingerprint: string, provisionFingerprint: string, reused: bool)

  const BATCH_NOT_UNIQUE := "NTD_NATIVE_BATCH_STRUCTURAL_PATH_NOT_UNIQUE"
  const CANARY_NOT_UNIQUE := "NTD_NATIVE_CANARY_STRUCTURAL_PATH_NOT_UNIQUE"

  /** The unseen call, with its `verified_at`. It may depend on what the earlier calls stored, so
    * it is also given the number of outcomes recorded before it. An error is the text of a
    * ValueError. */
  type Qualifier = (Artifact, string, Fragment, int, nat) -> Result<Provision, string>

  // ----- selecting the fragments of a path -----

  /** The canary's scan. */
  function Matching(fragments: seq<Fragment>, path: string): seq<Fragment> {
    if fragments == [] then []
    else
      var n := |fragments| - 1;
      Matching(fragments[..n], path) + if fragments[n].path == path then [fragments[n]] else []
  }

  /** `fragments_by_path.get(path, ())`. */
  function Found(grouped: map<string, seq<Fragment>>, path: string): seq<Fragment> {
    if path in grouped then grouped[path] else []
  }

  /** The batch's index: one pass, the same fragments in the same order as the scan. */
  method FragmentsByPath(fragments: seq<Fragment>) returns (grouped: map<string, seq<Fragment>>)
    ensures forall path :: Found(grouped, path) == Matching(fragments, path)
    ensures forall path :: path in grouped <==> exists f | f in fragments :: f.path == path
  {
    grouped := map[];
    for i := 0 to |fragments|
      invariant forall path :: Found(grouped, path) == Matching(fragments[..i], path)
      invariant forall path :: path in grouped <==> exists f | f in fragments[..i] :: f.path == path
    {
      assert fragments[..i + 1] == fragments[..i] + [fragments[i]];
      assert fragments[..i + 1][..i] == fragments[..i];
      var path := fragments[i].path;
      if path !in grouped {
        grouped := grouped[path := []];
      }
      grouped := grouped[path := grouped[path] + [fragments[i]]];
    }
    assert fragments[..|fragments|] == fragments;
  }

  function Positions(fragments: seq<Fragment>, path: string): set<int> {
    set i | 0 <= i < |fragments| && fragments[i].path == path
  }

  lemma {:induction false} MatchingMembers(fragments: seq<Fragment>, path: string)
    ensures forall f :: f in Matching(fragments, path) <==> f in fragments && f.path == path
  {
    if fragments != [] {
      var n := |fragments| - 1;
      MatchingMembers(fragments[..n], path);
      assert fragments == fragments[..n] + [fragments[n]];
    }
  }

  lemma {:induction false} MatchingCount(fragments: seq<Fragment>, path: string)
    ensures |Matching(fragments, path)| == |Positions(fragments, path)|
  {
    if fragments != [] {
      var n := |fragments| - 1;
      MatchingCount(fragments[..n], path);
      assert Positions(fragments, path) ==
             Positions(fragments[..n], path) + if fragments[n].path == path then {n} else {};
    }
  }

  /** The scan keeps exactly the fragments of the path, as many as there are, and a path is
    * unique in it exactly when it is unique among the fragments. */
  lemma {:induction false} MatchingSelects(fragments: seq<Fragment>, path: string)
    ensures forall f :: f in Matching(fragments, path) <==> f in fragments && f.path == path
    ensures |Matching(fragments, path)| == 1 <==> |Positions(fragments, path)| == 1
    ensures |Matching(fragments, path)| == |Positions(fragments, path)|
  {
    MatchingMembers(fragments, path);
    MatchingCount(fragments, path);
  }

  // ----- the canary and the batch -----

  function Canary(
      artifact: Artifact, fragments: seq<Fragment>, path: string, qualify: Qualifier, now: int, earlier: nat)
    : Result<Provision, string>
  {
    var matching := Matching(fragments, path);
    if |matching| != 1 then Err(CANARY_NOT_UNIQUE) else qualify(artifact, path, matching[0], now, earlier)
  }

  datatype Outcome =
    | Supported(artifact: Artifact, path: string, provision: Provision)
    | Blocked(artifact: Artifact, path: string, blocker: string)

  /** One artifact of the batch, with its fragments and its distinct candidate paths. */
  datatype Job = Job(artifact: Artifact, fragments: seq<Fragment>, paths: seq<string>)

  function Judge(job: Job, path: string, qualify: Qualifier, verifiedAt: int, earlier: nat): Outcome {
    var matches := Matching(job.fragments, path);
    if |matches| != 1 then Blocked(job.artifact, path, BATCH_NOT_UNIQUE)
    else
      match qualify(job.artifact, path, matches[0], verifiedAt, earlier)
      case Ok(provision) => Supported(job.artifact, path, provision)
      case Err(error) => Blocked(job.artifact, path, error)
  }

  function JudgeAll(job: Job, paths: seq<string>, qualify: Qualifier, verifiedAt: int, earlier: nat): (r: seq<Outcome>)
    ensures |r| == |paths|
    ensures forall i | 0 <= i < |paths| :: r[i] == Judge(job, paths[i], qualify, verifiedAt, earlier + i)
  {
    if paths == [] then []
    else
      var n := |paths| - 1;
      JudgeAll(job, paths[..n], qualify, verifiedAt, earlier) + [Judge(job, paths[n], qualify, verifiedAt, earlier + n)]
  }

  function BatchOutcomes(jobs: seq<Job>, qualify: Qualifier, verifiedAt: int): seq<Outcome> {
    if jobs == [] then []
    else
      var n := |jobs| - 1;
      var before := BatchOutcomes(jobs[..n], qualify, verifiedAt);
      before + JudgeAll(jobs[n], jobs[n].paths, qualify, verifiedAt, |before|)
  }

  /** The loops of the batch's `main`. */
  method RunBatch(jobs: seq<Job>, qualify: Qualifier, verifiedAt: int) returns (outcomes: seq<Outcome>)
    ensures outcomes == BatchOutcomes(jobs, qualify, verifiedAt)
  {
    outcomes := [];
    for j := 0 to |jobs|
      invariant outcomes == BatchOutcomes(jobs[..j], qualify, verifiedAt)
    {
      var grouped := FragmentsByPath(jobs[j].fragments);
      var more := RunJob(jobs[j], grouped, qualify, verifiedAt, |outcomes|);
      outcomes := outcomes + more;
      assert jobs[..j + 1][..j] == jobs[..j];
    }
    assert jobs[..|jobs|] == jobs;
  }

  method RunJob(job: Job, grouped: map<string, seq<Fragment>>, qualify: Qualifier, verifiedAt: int, earlier: nat)
    returns (outcomes: seq<Outcome>)
    requires forall path :: Found(grouped, path) == Matching(job.fragments, path)
    ensures outcomes == JudgeAll(job, job.paths, qualify, verifiedAt, earlier)
  {
    hide JudgeAll, Matching;
    outcomes := [];
    for p := 0 to |job.paths|
      invariant |outcomes| == p
      invariant forall i | 0 <= i < p :: outcomes[i] == Judge(job, job.paths[i], qualify, verifiedAt, earlier + i)
    {
      var path := job.paths[p];
      var matches := if path in grouped then grouped[path] else [];
      assert matches == Found(grouped, path);
      if |matches| != 1 {
        outcomes := outcomes + [Blocked(job.artifact, path, BATCH_NOT_UNIQUE)];
        continue;
      }
      var result := qualify(job.artifact, path, matches[0], verifiedAt, earlier + |outcomes|);
      match result {
        case Err(error) => outcomes := outcomes + [Blocked(job.artifact, path, error)];
        case Ok(provision) => outcomes := outcomes + [Supported(job.artifact, path, provision)];
      }
    }
  }

  // ----- conservation of outcomes -----

  /** Every candidate path of every artifact, in order. */
  function Requested(jobs: seq<Job>): seq<(Job, string)> {
    if jobs == [] then []
    else
      var job := jobs[|jobs| - 1];
      Requested(jobs[..|jobs| - 1]) + RequestedOf(job)
  }

  function RequestedOf(job: Job): seq<(Job, string)> {
    seq(|job.paths|, i requires 0 <= i < |job.paths| => (job, job.paths[i]))
  }

  /** The batch supports a path with the very result the canary gives at that point and with that
    * `verified_at`, and blocks it for the canary's reason. */
  predicate AgreesWithCanary(
      outcome: Outcome, job: Job, path: string, qualify: Qualifier, verifiedAt: int, earlier: nat) {
    var canary := Canary(job.artifact, job.fragments, path, qualify, verifiedAt, earlier);
    && outcome.artifact == job.artifact && outcome.path == path
    && (outcome.Supported? <==> canary.Ok?)
    && (outcome.Supported? ==> canary == Ok(outcome.provision))
    && (outcome.Blocked? ==>
          if |Matching(job.fragments, path)| == 1 then canary == Err(outcome.blocker)
          else outcome.blocker == BATCH_NOT_UNIQUE && canary == Err(CANARY_NOT_UNIQUE))
  }

  predicate AllAgree(
      outcomes: seq<Outcome>, requested: seq<(Job, string)>, qualify: Qualifier, verifiedAt: int, earlier: nat) {
    && |outcomes| == |requested|
    && forall i | 0 <= i < |outcomes| ::
         AgreesWithCanary(outcomes[i], requested[i].0, requested[i].1, qualify, verifiedAt, earlier + i)
  }

  lemma {:induction false} JobAgrees(job: Job, qualify: Qualifier, verifiedAt: int, earlier: nat)
    ensures AllAgree(JudgeAll(job, job.paths, qualify, verifiedAt, earlier), RequestedOf(job),
                     qualify, verifiedAt, earlier)
  {
  }

  lemma {:induction false} AgreeConcat(
      a: seq<Outcome>, ra: seq<(Job, string)>, b: seq<Outcome>, rb: seq<(Job, string)>,
      qualify: Qualifier, verifiedAt: int)
    requires AllAgree(a, ra, qualify, verifiedAt, 0) && AllAgree(b, rb, qualify, verifiedAt, |a|)
    ensures AllAgree(a + b, ra + rb, qualify, verifiedAt, 0)
  {
  }

  /** One outcome for each candidate path of each artifact, in order, and it is the canary's. */
  lemma {:induction false} BatchIsCanaries(jobs: seq<Job>, qualify: Qualifier, verifiedAt: int)
    ensures AllAgree(BatchOutcomes(jobs, qualify, verifiedAt), Requested(jobs), qualify, verifiedAt, 0)
  {
    assert AllAgree([], [], qualify, verifiedAt, 0);
    hide AllAgree;
    if jobs != [] {
      var n := |jobs| - 1;
      var before := BatchOutcomes(jobs[..n], qualify, verifiedAt);
      BatchIsCanaries(jobs[..n], qualify, verifiedAt);
      JobAgrees(jobs[n], qualify, verifiedAt, |before|);
      AgreeConcat(before, Requested(jobs[..n]),
                  JudgeAll(jobs[n], jobs[n].paths, qualify, verifiedAt, |before|), RequestedOf(jobs[n]),
                  qualify, verifiedAt);
    }
  }

  function CountSupported(outcomes: seq<Outcome>): nat {
    if outcomes == [] then 0
    else CountSupported(outcomes[..|outcomes| - 1]) + if outcomes[|outcomes| - 1].Supported? then 1 else 0
  }

  function CountBlocked(outcomes: seq<Outcome>): nat {
    if outcomes == [] then 0
    else CountBlocked(outcomes[..|outcomes| - 1]) + if outcomes[|outcomes| - 1].Blocked? then 1 else 0
  }

  function CountReused(outcomes: seq<Outcome>): nat {
    if outcomes == [] then 0
    else
      var last := outcomes[|outcomes| - 1];
      CountReused(outcomes[..|outcomes| - 1]) + if last.Supported? && last.provision.reused then 1 else 0
  }

  /** A Counter: the blockers of the blocked outcomes with their multiplicities. */
  function BlockerCounts(outcomes: seq<Outcome>): map<string, nat> {
    if outcomes == [] then map[]
    else
      var counts := BlockerCounts(outcomes[..|outcomes| - 1]);
      var last := outcomes[|outcomes| - 1];
      if last.Blocked? then counts[last.blocker := 1 + if last.blocker in counts then counts[last.blocker] else 0]
      else counts
  }

  datatype Summary = Summary(
    denominator: nat, supported: nat, blocked: nat, reused: nat, blockerCounts: map<string, nat>)

  function Summarize(outcomes: seq<Outcome>): Summary {
    Summary(|outcomes|, CountSupported(outcomes), CountBlocked(outcomes), CountReused(outcomes),
            BlockerCounts(outcomes))
  }

  ghost function Total(counts: map<string, nat>): nat {
    if |counts| == 0 then 0
    else
      var k := AnyOf(counts.Keys);
      counts[k] + Total(counts - {k})
  }

  lemma {:induction false} TotalWithout(counts: map<string, nat>, key: string)
    requires key in counts
    ensures Total(counts) == counts[key] + Total(counts - {key})
    decreases |counts|
  {
    assert |counts.Keys| > 0;
    var k := AnyOf(counts.Keys);
    if k != key {
      assert (counts - {k}).Keys == counts.Keys - {k};
      TotalWithout(counts - {k}, key);
      assert key in counts - {k} && k in counts - {key};
      assert (counts - {key}).Keys == counts.Keys - {key};
      TotalWithout(counts - {key}, k);
      assert counts - {k} - {key} == counts - {key} - {k};
    }
  }

  lemma {:induction false} TotalAfter(counts: map<string, nat>, key: string)
    ensures Total(counts[key := 1 + if key in counts then counts[key] else 0]) == Total(counts) + 1
  {
    var more := counts[key := 1 + if key in counts then counts[key] else 0];
    TotalWithout(more, key);
    if key in counts {
      TotalWithout(counts, key);
      assert more - {key} == counts - {key};
    } else {
      assert more - {key} == counts;
    }
  }

  lemma {:induction false} StatusesCounted(outcomes: seq<Outcome>)
    ensures CountSupported(outcomes) + CountBlocked(outcomes) == |outcomes|
    ensures CountReused(outcomes) <= CountSupported(outcomes)
    ensures CountBlocked(outcomes) == 0 <==> forall o | o in outcomes :: o.Supported?
  {
    if outcomes != [] {
      var n := |outcomes| - 1;
      StatusesCounted(outcomes[..n]);
      assert outcomes == outcomes[..n] + [outcomes[n]];
    }
  }

  function SupportedAt(outcomes: seq<Outcome>): set<int> {
    set i | 0 <= i < |outcomes| && outcomes[i].Supported?
  }

  function ReusedAt(outcomes: seq<Outcome>): set<int> {
    set i | 0 <= i < |outcomes| && outcomes[i].Supported? && outcomes[i].provision.reused
  }

  lemma {:induction false} SupportedCounted(outcomes: seq<Outcome>)
    ensures CountSupported(outcomes) == |SupportedAt(outcomes)|
  {
    if outcomes != [] {
      var n := |outcomes| - 1;
      SupportedCounted(outcomes[..n]);
      assert SupportedAt(outcomes) == SupportedAt(outcomes[..n]) + if outcomes[n].Supported? then {n} else {};
    }
  }

  lemma {:induction false} ReusedCounted(outcomes: seq<Outcome>)
    ensures CountReused(outcomes) == |ReusedAt(outcomes)|
  {
    if outcomes != [] {
      var n := |outcomes| - 1;
      ReusedCounted(outcomes[..n]);
      assert ReusedAt(outcomes) == ReusedAt(outcomes[..n])
             + if outcomes[n].Supported? && outcomes[n].provision.reused then {n} else {};
    }
  }

  /** Supported and reused outcomes are counted as often as they occur. */
  lemma {:induction false} CountsExact(outcomes: seq<Outcome>)
    ensures CountSupported(outcomes) == |SupportedAt(outcomes)|
    ensures CountReused(outcomes) == |ReusedAt(outcomes)|
  {
    SupportedCounted(outcomes);
    ReusedCounted(outcomes);
  }

  lemma {:induction false} BlockersCounted(outcomes: seq<Outcome>)
    ensures Total(BlockerCounts(outcomes)) == CountBlocked(outcomes)
  {
    if outcomes != [] {
      var n := |outcomes| - 1;
      BlockersCounted(outcomes[..n]);
      if outcomes[n].Blocked? {
        TotalAfter(BlockerCounts(outcomes[..n]), outcomes[n].blocker);
      }
    }
  }

  function BlockedBy(outcomes: seq<Outcome>, blocker: string): set<int> {
    set i | 0 <= i < |outcomes| && outcomes[i].Blocked? && outcomes[i].blocker == blocker
  }

  /** Each blocker is counted as often as it blocks, and no other key appears. */
  lemma {:induction false} BlockerCountsExact(outcomes: seq<Outcome>, blocker: string)
    ensures blocker in BlockerCounts(outcomes) <==> BlockedBy(outcomes, blocker) != {}
    ensures blocker in BlockerCounts(outcomes) ==> BlockerCounts(outcomes)[blocker] == |BlockedBy(outcomes, blocker)|
  {
    if outcomes != [] {
      var n := |outcomes| - 1;
      BlockerCountsExact(outcomes[..n], blocker);
      assert BlockedBy(outcomes, blocker) == BlockedBy(outcomes[..n], blocker)
             + if outcomes[n].Blocked? && outcomes[n].blocker == blocker then {n} else {};
    }
  }

  /** Nothing is lost between the outcomes and the summary, and the exit code is zero
    * (nothing blocked) exactly when every path is supported. */
  lemma {:induction false} SummaryConserves(jobs: seq<Job>, qualify: Qualifier, verifiedAt: int)
    ensures var outcomes := BatchOutcomes(jobs, qualify, verifiedAt);
            var s := Summarize(outcomes);
            && s.denominator == |Requested(jobs)|
            && s.supported + s.blocked == s.denominator
            && Total(s.blockerCounts) == s.blocked
            && s.reused <= s.supported
            && (s.blocked == 0 <==> forall o | o in outcomes :: o.Supported?)
  {
    BatchIsCanaries(jobs, qualify, verifiedAt);
    StatusesCounted(BatchOutcomes(jobs, qualify, verifiedAt));
    BlockersCounted(BatchOutcomes(jobs, qualify, verifiedAt));
  }

  // ----- the fingerprint -----

  /** The entry without its `reused` key. */
  datatype SemanticOutcome =
    | SemanticSupported(
        artifact: Artifact, path: string, id: string, version: int, pages: seq<int>,
        criticalTokens: seq<string>, verificationFingerprint: string, provisionFingerprint: string)
    | SemanticBlocked(artifact: Artifact, path: string, blocker: string)

  function Semantic(o: Outcome): SemanticOutcome {
    match o
    case Blocked(artifact, path, blocker) => SemanticBlocked(artifact, path, blocker)
    case Supported(artifact, path, p) =>
      SemanticSupported(artifact, path, p.id, p.version, p.pages, p.criticalTokens,
                        p.verificationFingerprint, p.provisionFingerprint)
  }

  /** What is hashed. */
  function SemanticPayload(outcomes: seq<Outcome>): seq<SemanticOutcome> {
    seq(|outcomes|, i requires 0 <= i < |outcomes| => Semantic(outcomes[i]))
  }

  /** An entry of the payload and its outcome: the same columns, but for `reused`. */
  predicate Describes(entry: SemanticOutcome, o: Outcome) {
    && entry.artifact == o.artifact && entry.path == o.path
    && (entry.SemanticBlocked? <==> o.Blocked?)
    && (o.Blocked? ==> entry.blocker == o.blocker)
    && (o.Supported? ==>
          && entry.id == o.provision.id && entry.version == o.provision.version
          && entry.pages == o.provision.pages && entry.criticalTokens == o.provision.criticalTokens
          && entry.verificationFingerprint == o.provision.verificationFingerprint
          && entry.provisionFingerprint == o.provision.provisionFingerprint)
  }

  /** The payload has one entry for each outcome, in order, and it is the one that describes it. */
  lemma {:induction false} PayloadDescribes(outcomes: seq<Outcome>, payload: seq<SemanticOutcome>)
    ensures payload == SemanticPayload(outcomes) <==>
              |payload| == |outcomes| && forall i | 0 <= i < |outcomes| :: Describes(payload[i], outcomes[i])
  {
    forall i | 0 <= i < |outcomes|
      ensures forall entry :: Describes(entry, outcomes[i]) <==> entry == Semantic(outcomes[i])
    {
    }
  }

  /** Equal, or equal but for whether the provision was reused. */
  predicate SameProvision(a: Provision, b: Provision) {
    a == b.(reused := a.reused)
  }

  predicate SameOutcome(a: Outcome, b: Outcome) {
    a == b || (a.Supported? && b.Supported? && a.artifact == b.artifact && a.path == b.path
               && SameProvision(a.provision, b.provision))
  }

  predicate SameOutcomes(a: seq<Outcome>, b: seq<Outcome>) {
    |a| == |b| && forall i | 0 <= i < |a| :: SameOutcome(a[i], b[i])
  }

  /** The payload tells two batches apart exactly when they differ in more than reuse. */
  lemma {:induction false} PayloadIgnoresOnlyReuse(a: seq<Outcome>, b: seq<Outcome>)
    ensures SemanticPayload(a) == SemanticPayload(b) <==> SameOutcomes(a, b)
  {
    if SemanticPayload(a) == SemanticPayload(b) {
      assert |SemanticPayload(a)| == |SemanticPayload(b)|;
      forall i | 0 <= i < |a|
        ensures SameOutcome(a[i], b[i])
      {
        assert SemanticPayload(a)[i] == SemanticPayload(b)[i];
      }
    }
  }

  predicate SameAnswer(a: Result<Provision, string>, b: Result<Provision, string>) {
    a == b || (a.Ok? && b.Ok? && SameProvision(a.value, b.value))
  }

  /** The second qualifier, at its time, answers as the first did at its own, but for reuse. */
  ghost predicate Replays(first: Qualifier, firstAt: int, replay: Qualifier, replayAt: int) {
    forall artifact, path, fragment, n ::
      SameAnswer(first(artifact, path, fragment, firstAt, n), replay(artifact, path, fragment, replayAt, n))
  }

  lemma {:induction false} SameJob(
      job: Job, first: Qualifier, firstAt: int, replay: Qualifier, replayAt: int, earlier: nat)
    requires Replays(first, firstAt, replay, replayAt)
    ensures SameOutcomes(JudgeAll(job, job.paths, first, firstAt, earlier),
                         JudgeAll(job, job.paths, replay, replayAt, earlier))
  {
  }

  lemma {:induction false} SameConcat(a: seq<Outcome>, b: seq<Outcome>, c: seq<Outcome>, d: seq<Outcome>)
    requires SameOutcomes(a, b) && SameOutcomes(c, d)
    ensures SameOutcomes(a + c, b + d)
  {
  }

  /** Replaying a batch whose provisions are now merely reused gives the same fingerprint. */
  lemma {:induction false} ReplayKeepsPayload(
      jobs: seq<Job>, first: Qualifier, firstAt: int, replay: Qualifier, replayAt: int)
    requires Replays(first, firstAt, replay, replayAt)
    ensures SameOutcomes(BatchOutcomes(jobs, first, firstAt), BatchOutcomes(jobs, replay, replayAt))
    ensures SemanticPayload(BatchOutcomes(jobs, first, firstAt)) ==
            SemanticPayload(BatchOutcomes(jobs, replay, replayAt))
  {
    if jobs != [] {
      var n := |jobs| - 1;
      ReplayKeepsPayload(jobs[..n], first, firstAt, replay, replayAt);
      var a, b := BatchOutcomes(jobs[..n], first, firstAt), BatchOutcomes(jobs[..n], replay, replayAt);
      SameJob(jobs[n], first, firstAt, replay, replayAt, |a|);
      SameConcat(a, b, JudgeAll(jobs[n], jobs[n].paths, first, firstAt, |a|),
                 JudgeAll(jobs[n], jobs[n].paths, replay, replayAt, |a|));
    }
    PayloadIgnoresOnlyReuse(BatchOutcomes(jobs, first, firstAt), BatchOutcomes(jobs, replay, replayAt));
  }
}
