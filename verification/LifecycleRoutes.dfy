/** The ways a workspace can still go. Given fresh evidence a committed call takes each step of
  * the transition table, so what the table and the gates leave open can be shown by runs.
  */
module LifecycleRoutes {
  import opened Wrappers
  import opened LifecycleStates
  import opened LifecycleEvidence
  import opened LifecycleTransition
  import opened LifecycleRuns

  // ----- one step -----

  const SERVICE := Provenance(None, Some("asd_lifecycle_service"), "runbook", 1, None)

  /** A call under a key nobody has used, expecting the version that is stored. */
  ghost function StepTo(s: Store, target: State, now: int): Event {
    Call(Request(s.row.lifecycleVersion, target, LongerThan(s.commands.Keys), "sha256:step", SERVICE), now)
  }

  /** The table and the evidence let this step through, at whatever version it is taken. */
  predicate Passable(e: Evidence, from: State, to: State, now: int) {
    && Allowed(from, to) && !to.Reopening? && !Reopens(from, to)
    && (NeedsCheckpoint(from, to) ==> Checkpointed(e, FailedOperation(to)))
    && GateStandsOpen(e, to, now)
  }

  predicate GateStandsOpen(e: Evidence, target: State, now: int) {
    match target
    case Frozen | Finalized | Exported => false
    case _ => Gate(e, target, 1, 1, now)
  }

  lemma {:induction false} OpenAtAnyVersion(e: Evidence, target: State, version: int, revision: int, now: int)
    requires GateStandsOpen(e, target, now) && version >= 1
    ensures Gate(e, target, version, revision, now)
  {
  }

  lemma {:induction false} KeyIsFree(s: Store, to: State, now: int)
    requires LogAgrees(s)
    ensures Collision(s, StepTo(s, to, now).req, now).None?
  {
    NextNumbersFree(s);
    hide LogAgrees;
  }

  lemma {:induction false} NoObjection(s: Store, to: State, now: int)
    requires LogAgrees(s) && Passable(s.evidence, s.row.state, to, now)
    requires s.row.legalHoldActive ==> !Destructive(to)
    ensures Objection(s, StepTo(s, to, now).req, now).None?
  {
    OpenAtAnyVersion(s.evidence, to, s.row.lifecycleVersion, s.row.workspaceRevision, now);
    hide Gate, GateStandsOpen, Checkpointed, Destructive;
  }

  lemma {:induction false} CommittedArrives(s: Store, req: Request, now: int)
    ensures Arrived(s, Committed(s, req, now), [req.target])
  {
  }

  lemma {:induction false} StepCommits(s: Store, to: State, now: int)
    requires Sound(s) && Passable(s.evidence, s.row.state, to, now)
    requires s.row.legalHoldActive ==> !Destructive(to)
    ensures Commits(s, StepTo(s, to, now))
    ensures Sound(Apply(s, StepTo(s, to, now)))
    ensures Arrived(s, Apply(s, StepTo(s, to, now)), [to])
  {
    hide Objection, Collision, Committed, Destructive, Arrived, GateStandsOpen, Checkpointed;
    hide CommandsMirrorLog, OutboxOrdered, Constraints, LogAgrees;
    StepSound(s, StepTo(s, to, now));
    KeyIsFree(s, to, now);
    NoObjection(s, to, now);
    CommittedArrives(s, StepTo(s, to, now).req, now);
  }

  // ----- many steps -----

  ghost function Walk(s: Store, path: seq<State>, now: int): seq<Event> {
    if path == [] then []
    else
      var n := |path| - 1;
      var before := Walk(s, path[..n], now);
      before + [StepTo(Exec(s, before), path[n], now)]
  }

  /** Where a path from `from` ends. */
  function EndOf(from: State, path: seq<State>): State {
    if path == [] then from else path[|path| - 1]
  }

  predicate Road(e: Evidence, from: State, path: seq<State>, now: int) {
    path == []
    || (var n := |path| - 1;
        Road(e, from, path[..n], now) && Passable(e, EndOf(from, path[..n]), path[n], now))
  }

  lemma {:induction false} RoadOnward(e: Evidence, from: State, to: State, rest: seq<State>, now: int)
    requires Passable(e, from, to, now) && Road(e, to, rest, now)
    ensures Road(e, from, [to] + rest, now)
    decreases |rest|
  {
    hide Passable;
    var path := [to] + rest;
    if rest == [] {
      assert path[..0] == [] && Road(e, from, path[..0], now);
    } else {
      var n := |rest| - 1;
      RoadOnward(e, from, to, rest[..n], now);
      assert path[..n + 1] == [to] + rest[..n];
    }
  }

  /** The walk moved the workspace along the path and touched nothing but the log. */
  predicate Arrived(s: Store, s': Store, path: seq<State>) {
    && s'.row.state == EndOf(s.row.state, path)
    && s'.row.legalHoldActive == s.row.legalHoldActive
    && s'.evidence == s.evidence && s'.content == s.content
    && s.history <= s'.history && |s'.history| == |s.history| + |path|
    && forall k | |s.history| <= k < |s'.history| :: s'.history[k].newState == path[k - |s.history|]
  }

  lemma {:induction false} ArrivedOnward(s: Store, s1: Store, s2: Store, path: seq<State>, to: State)
    requires Arrived(s, s1, path) && Arrived(s1, s2, [to])
    ensures Arrived(s, s2, path + [to])
  {
  }

  lemma {:induction false} WalkArrives(s: Store, path: seq<State>, now: int)
    requires Sound(s) && Road(s.evidence, s.row.state, path, now)
    requires s.row.legalHoldActive ==> forall t | t in path :: !Destructive(t)
    ensures Sound(Exec(s, Walk(s, path, now)))
    ensures Arrived(s, Exec(s, Walk(s, path, now)), path)
    decreases |path|
  {
    hide Passable, Sound, Commits, Apply, StepTo, Destructive;
    if path != [] {
      var n := |path| - 1;
      var walked := Walk(s, path[..n], now);
      var before := Exec(s, walked);
      assert path[n] in path && forall t | t in path[..n] :: t in path;
      WalkArrives(s, path[..n], now);
      StepCommits(before, path[n], now);
      assert (walked + [StepTo(before, path[n], now)])[..|walked|] == walked;
      ArrivedOnward(s, before, Apply(before, StepTo(before, path[n], now)), path[..n], path[n]);
      assert path[..n] + [path[n]] == path;
    }
  }

  // ----- fresh evidence -----

  const FOUR := Identities("requester", "confirmer", "executor", "verifier")

  ghost function FreshPlan(e: Evidence): (key: PlanKey)
    ensures key !in e.plans && key.version == 1
  {
    var ids := set p | p in e.plans :: p.plan;
    assert forall p | p in e.plans :: p.plan in ids;
    PlanKey(Above(ids), 1)
  }

  ghost function FreshDigest(e: Evidence): (digest: Digest)
    ensures forall p | p in e.plans :: e.plans[p].planDigest != digest
  {
    var digests := set p | p in e.plans :: e.plans[p].planDigest;
    assert forall p | p in e.plans :: e.plans[p].planDigest in digests;
    LongerThan(digests)
  }

  ghost function FreshAuthorization(e: Evidence): (a: Id)
    ensures a !in e.authorizations && !Invalidated(e, a)
  {
    var ids := e.authorizations.Keys + set i | i in e.invalidations :: e.invalidations[i].authorization;
    assert forall i | i in e.invalidations :: e.invalidations[i].authorization in ids;
    Above(ids)
  }

  ghost function FreshCheckpoint(e: Evidence): (c: Id)
    ensures c !in e.checkpoints
  {
    Above(e.checkpoints.Keys)
  }

  ghost function FreshAttestation(e: Evidence): (key: PlanKey)
    ensures key !in e.attestations && key.version == 1
  {
    var ids := set k | k in e.attestations :: k.plan;
    assert forall k | k in e.attestations :: k.plan in ids;
    PlanKey(Above(ids), 1)
  }

  function EmptyPlan(kind: OperationKind, digest: Digest): DeletionPlan {
    DeletionPlan(kind, 1, digest, [])
  }

  function Authorizing(plan: PlanKey, digest: Digest, now: int): Authorization {
    Authorization(plan, digest, FOUR, now, now + 1)
  }

  function CheckpointFor(kind: OperationKind, digest: Digest): RecoveryCheckpoint {
    RecoveryCheckpoint(digest, if kind.Reset? then "reset" else "destroy", Required)
  }

  function Attesting(plan: PlanKey): Attestation {
    Attestation(plan, FOUR, 0, Unchanged, Verified)
  }

  /** A plan without items, with its authorization, checkpoint and attestation. */
  ghost function Dossier(e: Evidence, kind: OperationKind, now: int): seq<Row> {
    var plan, digest := FreshPlan(e), FreshDigest(e);
    [PlanRow(plan, EmptyPlan(kind, digest)),
     AuthorizationRow(FreshAuthorization(e), Authorizing(plan, digest, now)),
     CheckpointRow(FreshCheckpoint(e), CheckpointFor(kind, digest)),
     AttestationRow(FreshAttestation(e), Attesting(plan))]
  }

  ghost function WithDossier(e: Evidence, kind: OperationKind, now: int): Evidence {
    var plan, digest := FreshPlan(e), FreshDigest(e);
    e.(plans := e.plans[plan := EmptyPlan(kind, digest)],
       authorizations := e.authorizations[FreshAuthorization(e) := Authorizing(plan, digest, now)],
       checkpoints := e.checkpoints[FreshCheckpoint(e) := CheckpointFor(kind, digest)],
       attestations := e.attestations[FreshAttestation(e) := Attesting(plan)])
  }

  lemma {:induction false} RecordedSnoc(e: Evidence, rows: seq<Row>, row: Row)
    ensures Recorded(e, rows + [row]) == Inserted(Recorded(e, rows), row)
  {
    assert (rows + [row])[..|rows|] == rows;
  }

  lemma {:induction false} RecordedFour(e: Evidence, a: Row, b: Row, c: Row, d: Row)
    ensures Recorded(e, [a, b, c, d]) == Inserted(Inserted(Inserted(Inserted(e, a), b), c), d)
  {
    hide Inserted;
    assert Recorded(e, []) == e;
    RecordedSnoc(e, [], a);
    RecordedSnoc(e, [a], b);
    RecordedSnoc(e, [a, b], c);
    RecordedSnoc(e, [a, b, c], d);
    assert [] + [a] == [a] && [a] + [b] == [a, b] && [a, b] + [c] == [a, b, c] && [a, b, c] + [d] == [a, b, c, d];
  }

  lemma {:induction false} DossierAccepted(e: Evidence, kind: OperationKind, now: int)
    ensures Recorded(e, Dossier(e, kind, now)) == WithDossier(e, kind, now)
  {
    hide Inserted, Recorded, FreshPlan, FreshDigest, FreshAuthorization, FreshCheckpoint, FreshAttestation;
    var plan, digest := FreshPlan(e), FreshDigest(e);
    var a := PlanRow(plan, EmptyPlan(kind, digest));
    var b := AuthorizationRow(FreshAuthorization(e), Authorizing(plan, digest, now));
    var c := CheckpointRow(FreshCheckpoint(e), CheckpointFor(kind, digest));
    var d := AttestationRow(FreshAttestation(e), Attesting(plan));
    RecordedFour(e, a, b, c, d);
    PlanAccepted(e, kind);
    var e1 := e.(plans := e.plans[plan := EmptyPlan(kind, digest)]);
    AuthorizationAccepted(e1, b.id, plan, digest, now);
    var e2 := e1.(authorizations := e.authorizations[b.id := Authorizing(plan, digest, now)]);
    CheckpointAccepted(e2, c.id, CheckpointFor(kind, digest));
    var e3 := e2.(checkpoints := e.checkpoints[c.id := CheckpointFor(kind, digest)]);
    AttestationAccepted(e3, d.key, plan);
  }

  lemma {:induction false} PlanAccepted(e: Evidence, kind: OperationKind)
    ensures var key, plan := FreshPlan(e), EmptyPlan(kind, FreshDigest(e));
            Inserted(e, PlanRow(key, plan)) == e.(plans := e.plans[key := plan])
  {
  }

  lemma {:induction false} AuthorizationAccepted(e: Evidence, id: Id, plan: PlanKey, digest: Digest, now: int)
    requires plan in e.plans && id !in e.authorizations
    ensures Inserted(e, AuthorizationRow(id, Authorizing(plan, digest, now))) ==
              e.(authorizations := e.authorizations[id := Authorizing(plan, digest, now)])
  {
  }

  lemma {:induction false} CheckpointAccepted(e: Evidence, id: Id, checkpoint: RecoveryCheckpoint)
    requires id !in e.checkpoints
    ensures Inserted(e, CheckpointRow(id, checkpoint)) == e.(checkpoints := e.checkpoints[id := checkpoint])
  {
  }

  lemma {:induction false} AttestationAccepted(e: Evidence, key: PlanKey, plan: PlanKey)
    requires plan in e.plans && key !in e.attestations && key.version == 1
    ensures Inserted(e, AttestationRow(key, Attesting(plan))) ==
              e.(attestations := e.attestations[key := Attesting(plan)])
  {
  }

  /** The gates and the checkpoint that an operation of one kind needs. */
  predicate Prepared(e: Evidence, kind: OperationKind, now: int) {
    && Checkpointed(e, if kind.Reset? then "reset" else "destroy")
    && GateStandsOpen(e, ResetAuthorized, now)
    && (kind.Reset? ==> GateStandsOpen(e, Purging, now) && GateStandsOpen(e, ResetVerified, now))
    && (kind.Destroy? ==> GateStandsOpen(e, Destroying, now) && GateStandsOpen(e, Destroyed, now))
  }

  lemma {:induction false} DossierCheckpoint(e: Evidence, kind: OperationKind, now: int)
    ensures Checkpointed(WithDossier(e, kind, now), if kind.Reset? then "reset" else "destroy")
  {
    var e' := WithDossier(e, kind, now);
    var plan, c := FreshPlan(e), FreshCheckpoint(e);
    hide FreshPlan, FreshDigest, FreshAuthorization, FreshCheckpoint, FreshAttestation;
    assert c in e'.checkpoints && plan in e'.plans;
    assert e'.plans[plan].planDigest == e'.checkpoints[c].planDigest;
  }

  lemma {:induction false} DossierAuthorizes(e: Evidence, kind: OperationKind, now: int)
    ensures var e' := WithDossier(e, kind, now);
            var a := FreshAuthorization(e);
            && Live(e', a, now)
            && (kind.Reset? ==> AuthorizesReset(e', a, 1))
            && (kind.Destroy? ==> AuthorizesDestroy(e', a))
  {
    hide FreshPlan, FreshDigest, FreshAuthorization, FreshCheckpoint, FreshAttestation;
  }

  lemma {:induction false} DossierAttests(e: Evidence, kind: OperationKind, now: int)
    ensures Attests(WithDossier(e, kind, now), FreshAttestation(e), kind)
  {
    hide FreshPlan, FreshDigest, FreshAuthorization, FreshCheckpoint, FreshAttestation;
  }

  lemma {:induction false} DossierPrepares(e: Evidence, kind: OperationKind, now: int)
    ensures Prepared(WithDossier(e, kind, now), kind, now)
  {
    hide WithDossier, FreshAuthorization, FreshAttestation, Checkpointed;
    DossierCheckpoint(e, kind, now);
    DossierAuthorizes(e, kind, now);
    DossierAttests(e, kind, now);
  }

  /** Record the dossier, then walk. */
  ghost function Preparing(s: Store, kind: OperationKind, path: seq<State>, now: int): seq<Event> {
    Records(Dossier(s.evidence, kind, now)) + Walk(WithPapers(s, kind, now), path, now)
  }

  ghost function WithPapers(s: Store, kind: OperationKind, now: int): Store {
    s.(evidence := WithDossier(s.evidence, kind, now))
  }

  lemma {:induction false} PreparedWalk(s: Store, kind: OperationKind, path: seq<State>, now: int)
    requires Sound(s) && Road(WithDossier(s.evidence, kind, now), s.row.state, path, now)
    requires s.row.legalHoldActive ==> forall t | t in path :: !Destructive(t)
    ensures Sound(Exec(s, Preparing(s, kind, path, now)))
    ensures Arrived(WithPapers(s, kind, now), Exec(s, Preparing(s, kind, path, now)), path)
  {
    hide Road, WithDossier, Dossier, Arrived, Sound;
    var rows := Dossier(s.evidence, kind, now);
    RecordsRun(s, rows);
    DossierAccepted(s.evidence, kind, now);
    SoundRun(s, Records(rows));
    WalkArrives(WithPapers(s, kind, now), path, now);
    ExecConcat(s, Records(rows), Walk(WithPapers(s, kind, now), path, now));
  }

  // ----- destruction always stays possible -----

  /** The next state on the way to DESTROYED, by way of a recovery and not of a reset. */
  function Onward(from: State): (to: State)
    requires !from.Destroyed?
    ensures Allowed(from, to) && Left(to) < Left(from)
    ensures !to.ResetVerified? && !to.Reopening? && !Reopens(from, to)
  {
    match from
    case Provisioning => Active
    case Active => Freezing
    case Frozen => Finalizing
    case Finalized => Exporting
    case Exported => Archiving
    case Archived => Closed
    case Closed => ResetPlanning
    case ResetPlanning => ResetAuthorized
    case ResetVerified | RecoveryRequired => Destroying
    case Destroying => Destroyed
    case _ => RecoveryRequired
  }

  /** How many steps are left. */
  function Left(from: State): nat {
    match from
    case Destroyed => 0
    case Destroying => 1
    case ResetVerified | RecoveryRequired => 2
    case Active | Frozen | Finalized | Exported | ResetPlanning => 4
    case Provisioning | Closed => 5
    case Archived => 6
    case _ => 3
  }

  function WayOut(from: State): (path: seq<State>)
    ensures |path| <= Left(from)
    ensures path == [] <==> from.Destroyed?
    ensures path != [] ==> path[|path| - 1].Destroyed?
    ensures forall to | to in path :: !to.ResetVerified?
    decreases Left(from)
  {
    if from.Destroyed? then [] else [Onward(from)] + WayOut(Onward(from))
  }

  lemma {:induction false} OnwardPassable(e: Evidence, from: State, now: int)
    requires Prepared(e, Destroy, now) && !from.Destroyed?
    ensures Passable(e, from, Onward(from), now)
  {
  }

  lemma {:induction false} WayOutIsRoad(e: Evidence, from: State, now: int)
    requires Prepared(e, Destroy, now)
    ensures Road(e, from, WayOut(from), now)
    decreases Left(from)
  {
    if !from.Destroyed? {
      OnwardPassable(e, from, now);
      WayOutIsRoad(e, Onward(from), now);
      RoadOnward(e, from, Onward(from), WayOut(Onward(from)), now);
    }
  }

  /** The states entered by the rows from `n` on. */
  function StatesSince(history: seq<HistoryRow>, n: nat): (states: seq<State>)
    requires n <= |history|
  {
    seq(|history| - n, j requires 0 <= j < |history| - n => history[n + j].newState)
  }

  lemma {:induction false} Arrives(s: Store, s': Store, way: seq<State>)
    requires Arrived(s, s', way) && way == WayOut(s.row.state)
    ensures s'.row.state.Destroyed? && s.history <= s'.history && |s'.history| <= |s.history| + 6
    ensures forall k | |s.history| <= k < |s'.history| :: !s'.history[k].newState.ResetVerified?
    ensures StatesSince(s'.history, |s.history|) == way
  {
    hide WayOut;
    forall k | |s.history| <= k < |s'.history|
      ensures !s'.history[k].newState.ResetVerified?
    {
      assert way[k - |s.history|] in way;
    }
  }

  lemma {:induction false} Released(s: Store, release: Event)
    requires release == SetHold(false, 1, "release")
    ensures Exec(s, [release]) == Apply(s, release)
    ensures Apply(s, release) == s.(row := s.row.(legalHoldActive := false, revision := 1))
  {
    assert [release][..0] == [] && Exec(s, []) == s;
  }

  /** From every reachable workspace, whatever its state, hold and evidence, some continuation
    * destroys it without entering RESET_VERIFIED: no state is a dead end, and no stage of a
    * reset is needed. */
  lemma {:induction false} DestructionStaysPossible(creation: Creation, events: seq<Event>, now: int)
    returns (more: seq<Event>)
    ensures var s, s' := Exec(Initial(creation), events), Exec(Initial(creation), events + more);
            && s'.row.state.Destroyed?
            && s.history <= s'.history && |s'.history| <= |s.history| + 6
            && (forall k | |s.history| <= k < |s'.history| :: !s'.history[k].newState.ResetVerified?)
            && StatesSince(s'.history, |s.history|) == WayOut(s.row.state)
  {
    hide Exec, Apply, Sound, Road, Prepared, WithDossier, Preparing, Arrived, WayOut;
    var s := Exec(Initial(creation), events);
    assert Sound(s) by { Reachable(creation, events); }
    var release := SetHold(false, 1, "release");
    var freed := Apply(s, release);
    Released(s, release);
    assert Sound(freed) by { StepSound(s, release); }
    var way := WayOut(s.row.state);
    more := [release] + Preparing(freed, Destroy, way, now);
    DossierPrepares(freed.evidence, Destroy, now);
    WayOutIsRoad(WithDossier(freed.evidence, Destroy, now), s.row.state, now);
    PreparedWalk(freed, Destroy, way, now);
    ExecConcat(Initial(creation), events, more);
    ExecConcat(s, [release], Preparing(freed, Destroy, way, now));
    Arrives(WithPapers(freed, Destroy, now), Exec(s, more), way);
  }
}
