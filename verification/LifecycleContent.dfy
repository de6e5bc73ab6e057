/** The write fence over whole runs: what was there at the freeze is there until the reopening. */
module LifecycleContent {
  import opened Wrappers
  import opened LifecycleStates
  import opened LifecycleEvidence
  import opened LifecycleTransition
  import opened LifecycleRuns

  /** No ordinary write is admitted before any event of the run. */
  predicate StaysFenced(s: Store, events: seq<Event>) {
    forall i | 0 <= i < |events| :: !FenceAdmits(Exec(s, events[..i]).row.state, false)
  }

  predicate NoExecutorDelete(events: seq<Event>) {
    forall e | e in events :: !e.ExecutorDelete?
  }

  lemma {:induction false} FencedStep(s: Store, e: Event)
    requires !FenceAdmits(s.row.state, false)
    ensures SubMap(Apply(s, e).content, s.content)
    ensures !e.ExecutorDelete? ==> Apply(s, e).content == s.content
  {
  }

  /** Behind the fence content can only shrink, and only by the executor's hand. */
  lemma {:induction false} FencedRun(s: Store, events: seq<Event>)
    requires StaysFenced(s, events)
    ensures SubMap(Exec(s, events).content, s.content)
    ensures NoExecutorDelete(events) ==> Exec(s, events).content == s.content
    decreases |events|
  {
    if events != [] {
      var n := |events| - 1;
      assert forall i | 0 <= i < n :: events[..n][..i] == events[..i];
      FencedRun(s, events[..n]);
      assert !FenceAdmits(Exec(s, events[..n]).row.state, false);
      FencedStep(Exec(s, events[..n]), events[n]);
    }
  }

  /** Event `i` freezes the workspace, which was ACTIVE, and it stays fenced from then on. */
  predicate LastFreeze(s: Store, events: seq<Event>, i: int) {
    && 0 <= i < |events|
    && Exec(s, events[..i]).row.state.Active?
    && Exec(s, events[..i + 1]).row.state.Freezing?
    && Exec(s, events[..i + 1]).content == Exec(s, events[..i]).content
    && forall j | i < j <= |events| :: !FenceAdmits(Exec(s, events[..j]).row.state, false)
  }

  lemma {:induction false} LastFreezeStays(s: Store, events: seq<Event>, i: int)
    requires events != [] && LastFreeze(s, events[..|events| - 1], i)
    requires !FenceAdmits(Exec(s, events).row.state, false)
    ensures LastFreeze(s, events, i)
  {
    hide Exec, FenceAdmits;
    var n := |events| - 1;
    assert events[..n + 1] == events;
    assert forall j | 0 <= j <= n :: events[..n][..j] == events[..j];
  }

  lemma {:induction false} FindLastFreeze(s: Store, events: seq<Event>) returns (i: int)
    requires FenceAdmits(s.row.state, false) && !FenceAdmits(Exec(s, events).row.state, false)
    ensures LastFreeze(s, events, i)
    decreases |events|
  {
    var n := |events| - 1;
    if FenceAdmits(Exec(s, events[..n]).row.state, false) {
      i := n;
      assert events[..n + 1] == events;
      EntersFenceByFreezing(Exec(s, events[..n]), events[n]);
    } else {
      i := FindLastFreeze(s, events[..n]);
      LastFreezeStays(s, events, i);
    }
  }

  lemma {:induction false} EntersFenceByFreezing(s: Store, e: Event)
    requires FenceAdmits(s.row.state, false) && !FenceAdmits(Apply(s, e).row.state, false)
    ensures s.row.state.Active? && Apply(s, e).row.state.Freezing? && Apply(s, e).content == s.content
  {
  }

  lemma {:induction false} SinceFreeze(s: Store, events: seq<Event>, i: int)
    requires LastFreeze(s, events, i)
    ensures SubMap(Exec(s, events).content, Exec(s, events[..i]).content)
    ensures NoExecutorDelete(events[i..]) ==> Exec(s, events).content == Exec(s, events[..i]).content
  {
    var frozen, rest := Exec(s, events[..i + 1]), events[i + 1..];
    forall j | 0 <= j < |rest|
      ensures !FenceAdmits(Exec(frozen, rest[..j]).row.state, false)
    {
      assert events[..i + 1 + j] == events[..i + 1] + rest[..j];
      ExecConcat(s, events[..i + 1], rest[..j]);
    }
    FencedRun(frozen, rest);
    assert events == events[..i + 1] + rest;
    ExecConcat(s, events[..i + 1], rest);
    assert forall e | e in rest :: e in events[i..];
  }

  /** In every state but PROVISIONING and ACTIVE, the content is that of the last freeze less
    * what the executor deleted since; without executor deletes it is exactly that content. */
  lemma {:induction false} FrozenContent(creation: Creation, events: seq<Event>) returns (i: int)
    requires !Writable(Exec(Initial(creation), events).row.state)
    ensures LastFreeze(Initial(creation), events, i)
    ensures var frozen := Exec(Initial(creation), events[..i]).content;
            var now := Exec(Initial(creation), events).content;
            && SubMap(now, frozen)
            && (NoExecutorDelete(events[i..]) ==> now == frozen)
  {
    i := FindLastFreeze(Initial(creation), events);
    SinceFreeze(Initial(creation), events, i);
  }

  /** Closing a workspace and reopening it is the identity on its content, unless the executor
    * deleted from it since the freeze; then it is what the executor left. */
  lemma {:induction false} CloseThenReopen(creation: Creation, events: seq<Event>, reopen: Event) returns (i: int)
    requires Exec(Initial(creation), events).row.state.Reopening?
    requires Exec(Initial(creation), events + [reopen]).row.state.Active?
    ensures LastFreeze(Initial(creation), events, i)
    ensures var frozen := Exec(Initial(creation), events[..i]).content;
            var reopened := Exec(Initial(creation), events + [reopen]).content;
            SubMap(reopened, frozen) && (NoExecutorDelete(events[i..]) ==> reopened == frozen)
  {
    i := FrozenContent(creation, events);
    assert (events + [reopen])[..|events|] == events;
    var s := Exec(Initial(creation), events);
    assert Commits(s, reopen);
  }

  /** The flag in the row tells exactly which writes the trigger refuses: those outside
    * PROVISIONING and ACTIVE. */
  lemma {:induction false} FenceFlagAgrees(creation: Creation, events: seq<Event>, w: Write)
    ensures var s := Exec(Initial(creation), events);
            && (s.row.writeFenced <==> !s.row.state.Provisioning? && !s.row.state.Active?)
            && Apply(s, MaterialWrite(w)).content == (if s.row.writeFenced then s.content else Written(s.content, w))
  {
    LogReplays(creation, events);
  }

  // ----- what a write leaves behind -----

  /** The two contents agree on a row: both have it with one value, or neither has it. */
  predicate SameAt(a: map<Id, string>, b: map<Id, string>, id: Id) {
    (id in a <==> id in b) && (id in a ==> a[id] == b[id])
  }

  /** After the write its row is as it asked: inserted if it was absent, updated if it was there,
    * or gone. */
  predicate Done(before: map<Id, string>, w: Write, after: map<Id, string>) {
    match w
    case InsertRow(id, value) => id in after && after[id] == if id in before then before[id] else value
    case UpdateRow(id, value) => (id in after <==> id in before) && (id in after ==> after[id] == value)
    case DeleteRow(id) => id !in after
  }

  lemma {:induction false} WriteDone(content: map<Id, string>, w: Write, id: Id)
    ensures Done(content, w, Written(content, w))
    ensures id != w.id ==> SameAt(Written(content, w), content, id)
  {
  }

  /** The row an event may write. */
  predicate Names(e: Event, id: Id) {
    (e.MaterialWrite? && e.write.id == id) || (e.ExecutorDelete? && e.id == id)
  }

  lemma {:induction false} UnnamedStays(s: Store, e: Event, id: Id)
    requires !Names(e, id)
    ensures SameAt(Apply(s, e).content, s.content, id)
  {
    hide Transition;
    if e.MaterialWrite? {
      WriteDone(s.content, e.write, id);
    } else if !e.ExecutorDelete? {
      OnlyWritersTouch(s, e);
    }
  }

  lemma {:induction false} OnlyWritersTouch(s: Store, e: Event)
    requires !e.MaterialWrite? && !e.ExecutorDelete?
    ensures Apply(s, e).content == s.content
  {
  }

  lemma {:induction false} RowStays(s: Store, events: seq<Event>, id: Id)
    requires forall e | e in events :: !Names(e, id)
    ensures SameAt(Exec(s, events).content, s.content, id)
    decreases |events|
  {
    hide Apply, Names;
    if events != [] {
      var n := |events| - 1;
      assert !Names(events[n], id);
      RowStays(s, events[..n], id);
      UnnamedStays(Exec(s, events[..n]), events[n], id);
    }
  }

  /** A reader sees the last write to a row: whatever happens later that does not name the row,
    * it is as an admitted write left it, and a refused write left it alone. */
  lemma {:induction false} LastWriteIsRead(creation: Creation, events: seq<Event>, w: Write, later: seq<Event>)
    requires forall e | e in later :: !Names(e, w.id)
    ensures var s := Exec(Initial(creation), events);
            var now := Exec(Initial(creation), events + [MaterialWrite(w)] + later).content;
            if s.row.state.Provisioning? || s.row.state.Active? then Done(s.content, w, now)
            else SameAt(now, s.content, w.id)
  {
    hide Apply, Done, Names;
    var s := Exec(Initial(creation), events);
    var write := MaterialWrite(w);
    FenceFlagAgrees(creation, events, w);
    assert (events + [write])[..|events|] == events;
    ExecConcat(Initial(creation), events + [write], later);
    RowStays(Apply(s, write), later, w.id);
    WriteDone(s.content, w, w.id);
    DoneIsLocal(s.content, w, Apply(s, write).content, Exec(Initial(creation), events + [write] + later).content);
  }

  /** The executor's deletes always go through: in every state a deleted row is gone and stays gone
    * until an event names it, and no other row is touched. */
  lemma {:induction false} ExecutorAlwaysDeletes(s: Store, id: Id, later: seq<Event>, other: Id)
    requires forall e | e in later :: !Names(e, id)
    ensures id !in Exec(Apply(s, ExecutorDelete(id)), later).content
    ensures other != id ==> SameAt(Apply(s, ExecutorDelete(id)).content, s.content, other)
  {
    RowStays(Apply(s, ExecutorDelete(id)), later, id);
  }

  lemma {:induction false} DoneIsLocal(
      before: map<Id, string>, w: Write, after: map<Id, string>, after': map<Id, string>)
    requires SameAt(after', after, w.id)
    ensures Done(before, w, after) <==> Done(before, w, after')
  {
  }
}
