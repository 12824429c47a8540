/**
 What every run of the protocol keeps: at most one external rule for each resource, cleanup before a
 resource vanishes, and the bookkeeping in status and finalizers. No assumption on key names beyond
 their characters is needed here: resources whose names contain each other's are covered.
 */
module RuleSafety {
  import opened Text
  import opened Kube
  import opened Opnsense
  import opened RuleSpec
  import opened RuleMachine

  // ---- The invariant ----

  /** The staged rule `u` bears the tag of `k`. */
  ghost predicate Marked(w: World, u: Uuid, k: Key) {
    u in w.staged && Bears(w.staged[u].description, k)
  }

  /** No staged rule other than `u` bears the tag of `k`. */
  ghost predicate Sole(w: World, k: Key, u: Uuid) {
    forall v | Marked(w, v, k) :: v == u
  }

  ghost predicate NoneMarked(w: World, k: Key) {
    forall v :: !Marked(w, v, k)
  }

  ghost predicate AtMostOne(w: World, k: Key) {
    forall u, v | Marked(w, u, k) && Marked(w, v, k) :: u == v
  }

  /** `u` was in use and is in neither configuration any more. */
  ghost predicate Gone(w: World, u: Uuid) {
    u in w.used && u !in w.staged && u !in w.live
  }

  ghost predicate Grounded(w: World) {
    && w.staged.Keys <= w.used && w.live.Keys <= w.used && "" !in w.used
    && (forall k | k in w.store.objects :: ValidKey(k))
    && (forall k :: !PcOf(w, k).Idle? ==> ValidKey(k))
  }

  /** Ready=True always carries the fixed reason and message and the status's own generation. */
  ghost predicate ReadyIsCanonical(s: Status) {
    s.ready.Some? && s.ready.value.ok ==>
      s.ready.value == Condition(true, READY_REASON, READY_MESSAGE, s.observedGeneration)
  }

  ghost predicate GoodObject(w: World, k: Key, obj: RuleObject) {
    && obj.version <= w.store.revision
    && obj.status.observedGeneration <= obj.generation
    && ReadyIsCanonical(obj.status)
    && (obj.status.uuid != "" ==>
          && obj.status.uuid in w.used
          && (FINALIZER in obj.finalizers || (obj.deleting && Gone(w, obj.status.uuid))))
    && (obj.status.uuid in w.staged ==> Sole(w, k, obj.status.uuid))
  }

  /** The stored resource still has its finalizer and the status that the running reconcile read. */
  ghost predicate Holds(w: World, k: Key, obj: RuleObject) {
    && k in w.store.objects
    && FINALIZER in obj.finalizers
    && var cur := w.store.objects[k];
    && FINALIZER in cur.finalizers
    && cur.status == obj.status
    && obj.generation <= cur.generation
    && obj.version <= cur.version
    && (cur.version == obj.version ==> cur == obj)
    && (obj.deleting ==> cur.deleting)
  }

  /** What holds while the reconcile of `k` waits at `pc`. */
  ghost predicate PcGood(w: World, k: Key, pc: Pc) {
    match pc
    case Idle => true
    case AddingFinalizer(obj) =>
      && FINALIZER !in obj.finalizers && !obj.deleting && obj.version <= w.store.revision
      && (Current(w.store, k, obj) ==> w.store.objects[k] == obj)
    case Connecting(obj) => Holds(w, k, obj) && (obj.deleting ==> obj.status.uuid != "")
    case Reading(obj) => Holds(w, k, obj)
    case Searching(obj) => Holds(w, k, obj) && obj.status.uuid !in w.staged
    case ReadingHit(obj, u) => Holds(w, k, obj) && obj.status.uuid !in w.staged && u in w.used && Sole(w, k, u)
    case Creating(obj) => Holds(w, k, obj) && obj.status.uuid !in w.staged && NoneMarked(w, k)
    case Updating(obj, u) =>
      Holds(w, k, obj) && u in w.used && Sole(w, k, u) && (obj.status.uuid in w.staged ==> u == obj.status.uuid)
    case Applying(obj, u) => Holds(w, k, obj) && u in w.used && Sole(w, k, u)
    case ReadingBack(obj, u) => Holds(w, k, obj) && u in w.used && Sole(w, k, u)
    case SavingReady(obj, u, _) => Holds(w, k, obj) && u in w.used && Sole(w, k, u)
    case SavingFailure(obj, _, _) => Holds(w, k, obj)
    case DeletingRule(obj) => Holds(w, k, obj) && obj.deleting && obj.status.uuid != ""
    case ApplyingDelete(obj) =>
      Holds(w, k, obj) && obj.deleting && obj.status.uuid != "" && obj.status.uuid !in w.staged
    case RemovingFinalizer(obj) =>
      Holds(w, k, obj) && obj.deleting && (obj.status.uuid == "" || Gone(w, obj.status.uuid))
  }

  ghost predicate KeyGood(w: World, k: Key) {
    && (k in w.store.objects ==> GoodObject(w, k, w.store.objects[k]))
    && AtMostOne(w, k)
    && PcGood(w, k, PcOf(w, k))
  }

  ghost predicate Inv(w: World) {
    Grounded(w) && forall k :: ValidKey(k) ==> KeyGood(w, k)
  }

  // ---- Frame: what the events of others leave alone ----

  ghost predicate SameObject(w: World, w': World, k: Key) {
    && (k in w.store.objects <==> k in w'.store.objects)
    && (k in w.store.objects ==> w.store.objects[k] == w'.store.objects[k])
    && w.store.revision <= w'.store.revision
  }

  ghost predicate SameBox(w: World, w': World, k: Key) {
    && (forall u | Marked(w', u, k) :: Marked(w, u, k))
    && w.used <= w'.used
    && (forall u | u in w.used && u !in w.staged :: u !in w'.staged)
    && (forall u | Gone(w, u) :: Gone(w', u))
  }

  lemma FrameKeepsKey(w: World, w': World, k: Key)
    requires Inv(w) && Grounded(w') && ValidKey(k)
    requires SameObject(w, w', k) && SameBox(w, w', k) && PcOf(w, k) == PcOf(w', k)
    ensures KeyGood(w', k)
  {
    assert KeyGood(w, k);
    assert "" !in w'.staged;
  }

  /** Every rule the operator writes for `j` bears the tag of `j`, hence no other resource's. */
  lemma WrittenDescription(w: World, j: Key, o: Outcome, u: Uuid)
    requires u in StagedAfter(w, j, o) && !(u in w.staged && StagedAfter(w, j, o)[u] == w.staged[u])
    ensures !PcOf(w, j).Idle?
    ensures StagedAfter(w, j, o)[u].description == ManagedDescription(PcOf(w, j).obj.spec.description, j)
    ensures Bears(StagedAfter(w, j, o)[u].description, j)
  {
    ManagedDescriptionBears(PcOf(w, j).obj.spec.description, j);
  }

  lemma CallLeavesOthers(w: World, j: Key, o: Outcome, k: Key)
    requires Inv(w) && Enabled(w, Call(j, o)) && ValidKey(k) && k != j
    ensures SameObject(w, Perform(w, j, o), k) && SameBox(w, Perform(w, j, o), k)
  {
    CallLeavesUuidsGone(w, j, o);
    forall u | Marked(Perform(w, j, o), u, k)
      ensures Marked(w, u, k)
    {
      if !(u in w.staged && StagedAfter(w, j, o)[u] == w.staged[u]) {
        WrittenDescription(w, j, o, u);
        TagUnique(StagedAfter(w, j, o)[u].description, j, k);
        assert false;
      }
    }
  }

  lemma CallLeavesUuidsGone(w: World, j: Key, o: Outcome)
    requires Inv(w) && Enabled(w, Call(j, o))
    ensures
      var w' := Perform(w, j, o);
      && w.used <= w'.used
      && (forall u | u in w.used && u !in w.staged :: u !in w'.staged)
      && (forall u | Gone(w, u) :: Gone(w', u))
  {
    assert KeyGood(w, j);
  }

  lemma CallKeepsGrounded(w: World, j: Key, o: Outcome)
    requires Inv(w) && Enabled(w, Call(j, o))
    ensures Grounded(Perform(w, j, o))
  {
    assert KeyGood(w, j);
  }

  // ---- The reconcile's own calls ----

  lemma SearchKeepsOwnPc(w: World, k: Key, o: Outcome)
    requires KeyGood(w, k) && Grounded(w) && PcOf(w, k).Searching?
    ensures PcGood(Perform(w, k, o), k, PcAfter(w, k, o))
  {
    var hits := Hits(w.staged, k);
    forall u | Marked(Perform(w, k, o), u, k)
      ensures u in hits
    {
      BearersMatch(w.staged[u].description, k);
    }
    if |hits| == 1 {
      assert TheOnly(hits) in hits;
    }
  }

  lemma ReadingKeepsOwnPc(w: World, k: Key, o: Outcome)
    requires KeyGood(w, k) && Grounded(w) && PcOf(w, k).Reading?
    ensures PcGood(Perform(w, k, o), k, PcAfter(w, k, o))
  {
    assert forall v :: Marked(Perform(w, k, o), v, k) == Marked(w, v, k);
  }

  lemma ReadingHitKeepsOwnPc(w: World, k: Key, o: Outcome)
    requires KeyGood(w, k) && Grounded(w) && PcOf(w, k).ReadingHit?
    ensures PcGood(Perform(w, k, o), k, PcAfter(w, k, o))
  {
    assert forall v :: Marked(Perform(w, k, o), v, k) == Marked(w, v, k);
  }

  lemma ReadingBackKeepsOwnPc(w: World, k: Key, o: Outcome)
    requires KeyGood(w, k) && Grounded(w) && PcOf(w, k).ReadingBack?
    ensures PcGood(Perform(w, k, o), k, PcAfter(w, k, o))
  {
    assert forall v :: Marked(Perform(w, k, o), v, k) == Marked(w, v, k);
  }

  lemma CreateKeepsOwnPc(w: World, k: Key, o: Outcome)
    requires KeyGood(w, k) && Grounded(w) && PcOf(w, k).Creating? && Enabled(w, Call(k, o))
    ensures PcGood(Perform(w, k, o), k, PcAfter(w, k, o))
  {
    var w' := Perform(w, k, o);
    assert forall v | Marked(w', v, k) && v != o.uuid :: Marked(w, v, k);
  }

  lemma UpdateKeepsOwnPc(w: World, k: Key, o: Outcome)
    requires KeyGood(w, k) && Grounded(w) && PcOf(w, k).Updating?
    ensures PcGood(Perform(w, k, o), k, PcAfter(w, k, o))
  {
    var w' := Perform(w, k, o);
    assert forall v | Marked(w', v, k) && v != PcOf(w, k).uuid :: Marked(w, v, k);
  }

  lemma OtherCallKeepsOwnPc(w: World, k: Key, o: Outcome)
    requires KeyGood(w, k) && Grounded(w) && Enabled(w, Call(k, o))
    requires var pc := PcOf(w, k); pc.Connecting? || pc.Applying? || pc.DeletingRule? || pc.ApplyingDelete?
    ensures PcGood(Perform(w, k, o), k, PcAfter(w, k, o))
  {
    if !PcOf(w, k).DeletingRule? {
      assert forall v :: Marked(Perform(w, k, o), v, k) == Marked(w, v, k);
    }
  }

  lemma CallKeepsOwnPc(w: World, k: Key, o: Outcome)
    requires Inv(w) && Enabled(w, Call(k, o))
    ensures PcGood(Perform(w, k, o), k, PcAfter(w, k, o))
  {
    assert KeyGood(w, k);
    var pc := PcOf(w, k);
    if pc.Searching? {
      SearchKeepsOwnPc(w, k, o);
    } else if pc.Reading? {
      ReadingKeepsOwnPc(w, k, o);
    } else if pc.ReadingHit? {
      ReadingHitKeepsOwnPc(w, k, o);
    } else if pc.ReadingBack? {
      ReadingBackKeepsOwnPc(w, k, o);
    } else if pc.Creating? {
      CreateKeepsOwnPc(w, k, o);
    } else if pc.Updating? {
      UpdateKeepsOwnPc(w, k, o);
    } else if pc.Connecting? || pc.Applying? || pc.DeletingRule? || pc.ApplyingDelete? {
      OtherCallKeepsOwnPc(w, k, o);
    }
  }

  /** The reconcile's effect on its own rules: they stay at most one, and the recorded one stays the sole one. */
  lemma CallKeepsOwnMarks(w: World, k: Key, o: Outcome)
    requires Inv(w) && Enabled(w, Call(k, o))
    ensures AtMostOne(Perform(w, k, o), k)
    ensures k in w.store.objects && w.store.objects[k].status.uuid in Perform(w, k, o).staged ==>
              Sole(Perform(w, k, o), k, w.store.objects[k].status.uuid)
  {
    assert KeyGood(w, k);
    var w' := Perform(w, k, o);
    var pc := PcOf(w, k);
    if pc.Creating? {
      assert forall v | Marked(w', v, k) && v != o.uuid :: Marked(w, v, k);
    } else if pc.Updating? {
      assert forall v | Marked(w', v, k) && v != pc.uuid :: Marked(w, v, k);
    } else {
      assert forall v | Marked(w', v, k) :: Marked(w, v, k);
    }
  }

  lemma CallKeepsOwnObject(w: World, k: Key, o: Outcome)
    requires Inv(w) && Enabled(w, Call(k, o)) && k in Perform(w, k, o).store.objects
    ensures GoodObject(Perform(w, k, o), k, Perform(w, k, o).store.objects[k])
  {
    assert KeyGood(w, k);
    CallKeepsOwnMarks(w, k, o);
    CallKeepsGrounded(w, k, o);
    if PcOf(w, k).SavingReady? {
      SaveKeepsOwnObject(w, k, o);
    }
  }

  lemma SaveKeepsOwnObject(w: World, k: Key, o: Outcome)
    requires Inv(w) && Enabled(w, Call(k, o)) && k in Perform(w, k, o).store.objects && PcOf(w, k).SavingReady?
    ensures GoodObject(Perform(w, k, o), k, Perform(w, k, o).store.objects[k])
  {
    assert KeyGood(w, k);
    assert forall v :: Marked(Perform(w, k, o), v, k) == Marked(w, v, k);
  }

  lemma CallKeepsInv(w: World, j: Key, o: Outcome)
    requires Inv(w) && Enabled(w, Call(j, o))
    ensures Inv(Perform(w, j, o))
  {
    var w' := Perform(w, j, o);
    CallKeepsGrounded(w, j, o);
    forall k | ValidKey(k)
      ensures KeyGood(w', k)
    {
      if k == j {
        CallKeepsOwnPc(w, k, o);
        CallKeepsOwnMarks(w, k, o);
        if k in w'.store.objects {
          CallKeepsOwnObject(w, k, o);
        }
      } else {
        CallLeavesOthers(w, j, o, k);
        FrameKeepsKey(w, w', k);
      }
    }
  }

  // ---- Everything else that can happen ----

  ghost predicate ByUser(e: Event) {
    e.UserCreate? || e.UserEdit? || e.UserDelete? || e.OthersFinalize?
  }

  ghost predicate ByAdmin(e: Event) {
    e.AdminAdd? || e.AdminSet? || e.AdminDelete? || e.AdminApply?
  }

  /** A user's or another controller's change leaves a running reconcile's finalizer and status in place. */
  lemma UserKeepsPc(w: World, e: Event)
    requires Inv(w) && Enabled(w, e) && ByUser(e) && ValidKey(e.key)
    ensures PcGood(Act(w, e), e.key, PcOf(w, e.key))
  {
    var k := e.key;
    assert KeyGood(w, k);
    assert forall v :: Marked(Act(w, e), v, k) == Marked(w, v, k);
    var pc := PcOf(w, k);
    if !pc.Idle? && !pc.AddingFinalizer? {
      UserKeepsHold(w, e, pc.obj);
    }
  }

  lemma UserKeepsHold(w: World, e: Event, obj: RuleObject)
    requires Inv(w) && Enabled(w, e) && ByUser(e) && ValidKey(e.key) && Holds(w, e.key, obj)
    ensures Holds(Act(w, e), e.key, obj)
  {
    assert KeyGood(w, e.key);
  }

  lemma UserKeepsObject(w: World, e: Event)
    requires Inv(w) && Enabled(w, e) && ByUser(e) && ValidKey(e.key) && e.key in Act(w, e).store.objects
    ensures GoodObject(Act(w, e), e.key, Act(w, e).store.objects[e.key])
  {
    assert KeyGood(w, e.key);
    assert forall v :: Marked(Act(w, e), v, e.key) == Marked(w, v, e.key);
  }

  lemma UserKeepsOwnKey(w: World, e: Event)
    requires Inv(w) && Enabled(w, e) && ByUser(e) && ValidKey(e.key)
    ensures KeyGood(Act(w, e), e.key)
  {
    assert KeyGood(w, e.key);
    UserKeepsPc(w, e);
    if e.key in Act(w, e).store.objects {
      UserKeepsObject(w, e);
    }
    assert forall v :: Marked(Act(w, e), v, e.key) == Marked(w, v, e.key);
    assert PcOf(Act(w, e), e.key) == PcOf(w, e.key);
  }

  lemma UserLeavesOthers(w: World, e: Event, k: Key)
    requires Inv(w) && Enabled(w, e) && ByUser(e) && k != e.key
    ensures SameObject(w, Act(w, e), k) && SameBox(w, Act(w, e), k) && PcOf(w, k) == PcOf(Act(w, e), k)
  {
  }

  lemma UserKeepsInv(w: World, e: Event)
    requires Inv(w) && Enabled(w, e) && ByUser(e)
    ensures Inv(Act(w, e))
  {
    var w' := Act(w, e);
    assert Grounded(w') by {
      assert forall k :: PcOf(w', k) == PcOf(w, k);
    }
    forall k | ValidKey(k)
      ensures KeyGood(w', k)
    {
      if k == e.key {
        UserKeepsOwnKey(w, e);
      } else {
        UserLeavesOthers(w, e, k);
        FrameKeepsKey(w, w', k);
      }
    }
  }

  lemma AdminKeepsInv(w: World, e: Event)
    requires Inv(w) && Enabled(w, e) && ByAdmin(e)
    ensures Inv(Act(w, e))
  {
    var w' := Act(w, e);
    assert forall k :: PcOf(w', k) == PcOf(w, k);
    forall k | ValidKey(k)
      ensures KeyGood(w', k)
    {
      forall u | Marked(w', u, k)
        ensures Marked(w, u, k)
      {
        BearersAreManaged(w'.staged[u].description, k);
      }
      FrameKeepsKey(w, w', k);
    }
  }

  lemma BearersAreManaged(description: string, k: Key)
    requires Bears(description, k)
    ensures !Unmanaged(description)
  {
    TagShape(k);
    var before := description[..|description| - |Tag(k)|];
    assert description == before + Tag(k);
    assert description == before + MARKER + (Phrase(k) + "]");
    ContainsAfterPrefix(before, MARKER);
    ContainsStaysWithMoreAtEnd(before + MARKER, MARKER, Phrase(k) + "]");
  }

  /** The copy that a reconcile starts from satisfies what its first program counter needs. */
  lemma BeginKeepsInv(w: World, e: Event)
    requires Inv(w) && Enabled(w, e) && (e.Begin? || e.Crash?)
    ensures Inv(Act(w, e))
  {
    var w' := Act(w, e);
    assert forall k, v :: Marked(w', v, k) == Marked(w, v, k);
    assert forall k | k != e.key :: PcOf(w', k) == PcOf(w, k);
    forall k | ValidKey(k)
      ensures KeyGood(w', k)
    {
      if k == e.key {
        BeginKeepsOwnKey(w, e);
      } else {
        FrameKeepsKey(w, w', k);
      }
    }
  }

  lemma BeginKeepsOwnKey(w: World, e: Event)
    requires Inv(w) && Enabled(w, e) && (e.Begin? || e.Crash?) && ValidKey(e.key)
    ensures KeyGood(Act(w, e), e.key)
  {
    assert KeyGood(w, e.key);
    assert forall v :: Marked(Act(w, e), v, e.key) == Marked(w, v, e.key);
  }

  lemma NextKeepsInv(w: World, e: Event)
    requires Inv(w)
    ensures Inv(Next(w, e))
  {
    if Enabled(w, e) {
      if e.Call? {
        CallKeepsInv(w, e.key, e.outcome);
      } else if e.Begin? || e.Crash? {
        BeginKeepsInv(w, e);
      } else if ByUser(e) {
        UserKeepsInv(w, e);
      } else {
        AdminKeepsInv(w, e);
      }
    }
  }

  lemma {:induction false} RunKeepsInv(w: World, es: seq<Event>)
    requires Inv(w)
    ensures Inv(Run(w, es))
  {
    if es != [] {
      RunKeepsInv(w, es[..|es| - 1]);
      NextKeepsInv(Run(w, es[..|es| - 1]), es[|es| - 1]);
    }
  }

  lemma InitialInv(w: World)
    requires Initial(w)
    ensures Inv(w)
  {
    forall k, u | Marked(w, u, k)
      ensures false
    {
      BearersAreManaged(w.staged[u].description, k);
    }
  }

  lemma ReachableInv(w0: World, es: seq<Event>)
    requires Initial(w0)
    ensures Inv(Run(w0, es))
  {
    InitialInv(w0);
    RunKeepsInv(w0, es);
  }
}
