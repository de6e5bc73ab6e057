/** Writes in flight. The fence trigger reads the workspace row without a lock, so a write that
  * read ACTIVE may land after the freeze. What is still true of the frozen content?
  */
module LifecycleInFlight {
  import opened Wrappers
  import opened LifecycleStates
  import opened LifecycleEvidence
  import opened LifecycleTransition

  /** A workspace and the writers whose trigger has admitted them and who have not landed yet. */
  datatype World = World(store: Store, inFlight: set<Id>)

  datatype Step =
    | Whole(event: Event)
    | ReadFence(writer: Id)
    | Land(writer: Id, write: Write)

  function Next(w: World, step: Step): World {
    match step
    case Whole(event) => w.(store := Apply(w.store, event))
    case ReadFence(writer) => if Fenced(w) then w else w.(inFlight := w.inFlight + {writer})
    case Land(writer, write) =>
      if writer !in w.inFlight then w
      else World(w.store.(content := Written(w.store.content, write)), w.inFlight - {writer})
  }

  function Run(w: World, steps: seq<Step>): World {
    if steps == [] then w else Next(Run(w, steps[..|steps| - 1]), steps[|steps| - 1])
  }

  predicate Fenced(w: World) {
    !FenceAdmits(w.store.row.state, false)
  }

  /** The fence is up before each of the steps. */
  predicate Behind(w: World, steps: seq<Step>) {
    forall i | 0 <= i < |steps| :: Fenced(Run(w, steps[..i]))
  }

  lemma {:induction false} RunConcat(w: World, a: seq<Step>, b: seq<Step>)
    ensures Run(w, a + b) == Run(Run(w, a), b)
    decreases |b|
  {
    hide Next;
    if b == [] {
      assert a + b == a;
    } else {
      var n := |b| - 1;
      RunConcat(w, a, b[..n]);
      assert (a + b)[..|a + b| - 1] == a + b[..n];
    }
  }

  // ----- the split steps and the whole ones -----

  /** A write that lands right after its trigger has read the row is the write in one step, and the
    * trigger admits exactly the writers that come in PROVISIONING or ACTIVE. Other events are those
    * of the runs without writes in flight. */
  lemma {:induction false} PromptWriteIsAtomic(w: World, writer: Id, write: Write, e: Event)
    requires writer !in w.inFlight
    ensures Next(w, Whole(e)) == World(Apply(w.store, e), w.inFlight)
    ensures var admitted := Next(w, ReadFence(writer));
            && admitted.store == w.store
            && (writer in admitted.inFlight <==> w.store.row.state.Provisioning? || w.store.row.state.Active?)
            && Next(admitted, Land(writer, write)) == World(Apply(w.store, MaterialWrite(write)), w.inFlight)
  {
    hide Written;
  }

  // ----- what may happen behind the fence -----

  /** The writers that land, in order. */
  function Landed(w: World, steps: seq<Step>): seq<Id> {
    if steps == [] then []
    else
      var n := |steps| - 1;
      Landed(w, steps[..n]) +
      if steps[n].Land? && steps[n].writer in Run(w, steps[..n]).inFlight then [steps[n].writer] else []
  }

  /** The rows that those writers write and the executor deletes. */
  function Touched(w: World, steps: seq<Step>): set<Id> {
    if steps == [] then {}
    else
      var n := |steps| - 1;
      Touched(w, steps[..n]) + TouchedBy(Run(w, steps[..n]), steps[n])
  }

  function TouchedBy(w: World, step: Step): set<Id> {
    match step
    case Whole(ExecutorDelete(id)) => {id}
    case Land(writer, write) => if writer in w.inFlight then {write.id} else {}
    case _ => {}
  }

  ghost predicate AgreesOutside(a: map<Id, string>, b: map<Id, string>, ids: set<Id>) {
    forall id | id !in ids :: (id in a <==> id in b) && (id in a ==> a[id] == b[id])
  }

  predicate Once(writers: seq<Id>, admitted: set<Id>, left: set<Id>) {
    && (forall i, j | 0 <= i < j < |writers| :: writers[i] != writers[j])
    && (forall x | x in writers :: x in admitted)
    && left == admitted - set x | x in writers
  }

  lemma {:induction false} FencedStepTouches(w: World, step: Step)
    requires Fenced(w)
    ensures AgreesOutside(Next(w, step).store.content, w.store.content, TouchedBy(w, step))
    ensures Next(w, step).inFlight ==
              w.inFlight - if step.Land? then {step.writer} else {}
  {
  }

  lemma {:induction false} OnceMore(writers: seq<Id>, admitted: set<Id>, left: set<Id>, x: Id)
    requires Once(writers, admitted, left) && x in left
    ensures Once(writers + [x], admitted, left - {x})
  {
  }

  /** Behind the fence only writers that were admitted before can land, each once, and no other
    * row than theirs and those the executor deletes is touched. */
  lemma {:induction false} BehindTheFence(w: World, steps: seq<Step>)
    requires Behind(w, steps)
    ensures Once(Landed(w, steps), w.inFlight, Run(w, steps).inFlight)
    ensures AgreesOutside(Run(w, steps).store.content, w.store.content, Touched(w, steps))
    decreases |steps|
  {
    if steps != [] {
      var n := |steps| - 1;
      var before := Run(w, steps[..n]);
      assert forall i | 0 <= i < n :: steps[..n][..i] == steps[..i];
      BehindTheFence(w, steps[..n]);
      assert Fenced(before);
      hide Once, Next, Fenced;
      FencedStepTouches(before, steps[n]);
      if steps[n].Land? && steps[n].writer in before.inFlight {
        OnceMore(Landed(w, steps[..n]), w.inFlight, before.inFlight, steps[n].writer);
      } else {
        assert Run(w, steps).inFlight == before.inFlight;
      }
    }
  }

  // ----- since the last freeze -----

  /** Step `i` freezes the workspace, which was ACTIVE, and it stays fenced from then on. */
  predicate Freezes(w: World, steps: seq<Step>, i: int) {
    && 0 <= i < |steps|
    && Run(w, steps[..i]).store.row.state.Active?
    && Run(w, steps[..i + 1]).store.row.state.Freezing?
    && Run(w, steps[..i + 1]).store.content == Run(w, steps[..i]).store.content
    && Run(w, steps[..i + 1]).inFlight == Run(w, steps[..i]).inFlight
    && forall j | i < j <= |steps| :: Fenced(Run(w, steps[..j]))
  }

  lemma {:induction false} EntersFence(w: World, step: Step)
    requires !Fenced(w) && Fenced(Next(w, step))
    ensures w.store.row.state.Active? && Next(w, step).store.row.state.Freezing?
    ensures Next(w, step).store.content == w.store.content && Next(w, step).inFlight == w.inFlight
  {
  }

  lemma {:induction false} FreezesStays(w: World, steps: seq<Step>, i: int)
    requires steps != [] && Freezes(w, steps[..|steps| - 1], i) && Fenced(Run(w, steps))
    ensures Freezes(w, steps, i)
  {
    hide Run, Fenced;
    var n := |steps| - 1;
    assert steps[..n + 1] == steps;
    assert forall j | 0 <= j <= n :: steps[..n][..j] == steps[..j];
  }

  lemma {:induction false} FindFreeze(w: World, steps: seq<Step>) returns (i: int)
    requires !Fenced(w) && Fenced(Run(w, steps))
    ensures Freezes(w, steps, i)
    decreases |steps|
  {
    hide Next, Fenced;
    var n := |steps| - 1;
    if Fenced(Run(w, steps[..n])) {
      i := FindFreeze(w, steps[..n]);
      FreezesStays(w, steps, i);
    } else {
      i := n;
      assert steps[..n + 1] == steps;
      EntersFence(Run(w, steps[..n]), steps[n]);
    }
  }

  lemma {:induction false} BehindSince(w: World, steps: seq<Step>, i: int)
    requires Freezes(w, steps, i)
    ensures Behind(Run(w, steps[..i + 1]), steps[i + 1..])
    ensures Run(w, steps) == Run(Run(w, steps[..i + 1]), steps[i + 1..])
  {
    hide Run, Fenced;
    var frozen, since := Run(w, steps[..i + 1]), steps[i + 1..];
    forall j | 0 <= j < |since|
      ensures Fenced(Run(frozen, since[..j]))
    {
      assert steps[..i + 1 + j] == steps[..i + 1] + since[..j];
      RunConcat(w, steps[..i + 1], since[..j]);
    }
    assert steps == steps[..i + 1] + since;
    RunConcat(w, steps[..i + 1], since);
  }

  function Created(creation: Creation): World {
    World(Initial(creation), {})
  }

  /** In every fenced state the content differs from that of the last freeze only in rows the
    * executor deleted since and rows of writers that had read the fence before the freeze and
    * landed since, each at most once. */
  lemma {:induction false} OnlyWritesInFlight(creation: Creation, steps: seq<Step>) returns (i: int)
    requires Fenced(Run(Created(creation), steps))
    ensures Freezes(Created(creation), steps, i)
    ensures var frozen, since := Run(Created(creation), steps[..i + 1]), steps[i + 1..];
            var now := Run(Created(creation), steps);
            && AgreesOutside(now.store.content, frozen.store.content, Touched(frozen, since))
            && Once(Landed(frozen, since), frozen.inFlight, now.inFlight)
            && |Landed(frozen, since)| <= |frozen.inFlight|
  {
    i := FindFreeze(Created(creation), steps);
    BehindSince(Created(creation), steps, i);
    var frozen, since := Run(Created(creation), steps[..i + 1]), steps[i + 1..];
    BehindTheFence(frozen, since);
    OnceBounds(Landed(frozen, since), frozen.inFlight, Run(frozen, since).inFlight);
  }

  lemma {:induction false} OnceBounds(writers: seq<Id>, admitted: set<Id>, left: set<Id>)
    requires Once(writers, admitted, left)
    ensures |writers| <= |admitted|
    decreases |writers|
  {
    if writers != [] {
      var n := |writers| - 1;
      var x := writers[n];
      assert forall y | y in writers[..n] :: y in admitted - {x};
      OnceBounds(writers[..n], admitted - {x}, admitted - {x} - set y | y in writers[..n]);
    }
  }

  // ----- exactly when frozen content cannot change -----

  predicate NoDeletes(steps: seq<Step>) {
    forall i | 0 <= i < |steps| :: !(steps[i].Whole? && steps[i].event.ExecutorDelete?)
  }

  /** Whatever happens behind the fence, executor deletes aside, the content stays. */
  ghost predicate ContentFixed(w: World) {
    forall steps | Behind(w, steps) && NoDeletes(steps) :: Run(w, steps).store.content == w.store.content
  }

  lemma {:induction false} NothingTouched(w: World, steps: seq<Step>)
    requires Behind(w, steps) && NoDeletes(steps) && w.inFlight == {}
    ensures Run(w, steps).inFlight == {} && Touched(w, steps) == {}
    decreases |steps|
  {
    if steps != [] {
      var n := |steps| - 1;
      assert forall i | 0 <= i < n :: steps[..n][..i] == steps[..i];
      assert !(steps[n].Whole? && steps[n].event.ExecutorDelete?) && Fenced(Run(w, steps[..n]));
      NothingTouched(w, steps[..n]);
      FencedStepTouches(Run(w, steps[..n]), steps[n]);
    }
  }

  lemma {:induction false} AgreeEverywhere(a: map<Id, string>, b: map<Id, string>)
    requires AgreesOutside(a, b, {})
    ensures a == b
  {
    assert forall id :: id !in {} ==> (id in a <==> id in b) && (id in a ==> a[id] == b[id]);
    assert a.Keys == b.Keys;
  }

  lemma {:induction false} LateWrite(w: World, writer: Id) returns (step: Step)
    requires writer in w.inFlight
    ensures step.Land? && Next(w, step).store.content != w.store.content
  {
    var id := Above(w.store.content.Keys);
    step := Land(writer, InsertRow(id, "late"));
    assert id in Next(w, step).store.content && id !in w.store.content;
  }

  /** Fenced content cannot change exactly when no write was in flight: what a caller that wants
    * a stable freeze has to wait for. */
  lemma {:induction false} ContentFixedIff(w: World)
    requires Fenced(w)
    ensures ContentFixed(w) <==> w.inFlight == {}
  {
    if w.inFlight == {} {
      forall steps | Behind(w, steps) && NoDeletes(steps)
        ensures Run(w, steps).store.content == w.store.content
      {
        NothingTouched(w, steps);
        BehindTheFence(w, steps);
        AgreeEverywhere(Run(w, steps).store.content, w.store.content);
      }
    } else {
      assert |w.inFlight| > 0;
      var step := LateWrite(w, AnyOf(w.inFlight));
      assert [step][..0] == [];
      assert Behind(w, [step]) && NoDeletes([step]);
      assert Run(w, [step]) == Next(Run(w, [step][..0]), step);
    }
  }
}
