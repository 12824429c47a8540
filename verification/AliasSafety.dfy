/**
 What every run of the alias protocol keeps, and the cleanup theorem.
 */
module AliasSafety {
  import opened Kube
  import opened Opnsense
  import opened AliasSpec
  import opened AliasMachine

  ghost predicate Gone(w: World, u: Uuid) {
    u in w.used && u !in w.staged && u !in w.live
  }

  ghost predicate Grounded(w: World) {
    && w.staged.Keys <= w.used && w.live.Keys <= w.used && "" !in w.used
    && UniqueNames(w.staged) && forall u | u in w.staged :: Readable(w.staged[u])
  }

  ghost predicate ReadyIsCanonical(s: Status) {
    s.ready.Some? && s.ready.value.ok ==>
      s.ready.value == Condition(true, READY_REASON, READY_MESSAGE, s.observedGeneration)
  }

  ghost predicate GoodObject(w: World, obj: AliasObject) {
    && obj.version <= w.store.revision
    && obj.status.observedGeneration <= obj.generation
    && ReadyIsCanonical(obj.status) && ValidSpec(obj.spec)
    && (obj.status.uuid != "" ==>
          && obj.status.uuid in w.used
          && (FINALIZER in obj.finalizers || (obj.deleting && Gone(w, obj.status.uuid))))
  }

  ghost predicate Holds(w: World, k: Key, obj: AliasObject) {
    && k in w.store.objects && FINALIZER in obj.finalizers && ValidSpec(obj.spec)
    && var cur := w.store.objects[k];
    && FINALIZER in cur.finalizers
    && cur.status == obj.status
    && obj.generation <= cur.generation
    && obj.version <= cur.version
    && (cur.version == obj.version ==> cur == obj)
    && (obj.deleting ==> cur.deleting)
  }

  ghost predicate PcGood(w: World, k: Key, pc: Pc) {
    match pc
    case Idle => true
    case AddingFinalizer(obj) =>
      && FINALIZER !in obj.finalizers && !obj.deleting && obj.version <= w.store.revision
      && (Current(w.store, k, obj) ==> w.store.objects[k] == obj)
    case ReadingFound(obj, u) => Holds(w, k, obj) && u in w.used
    case Updating(obj, u) => Holds(w, k, obj) && u in w.used
    case Reconfiguring(obj, u) => Holds(w, k, obj) && u in w.used
    case SavingReady(obj, u) => Holds(w, k, obj) && u in w.used
    case Connecting(obj) => Holds(w, k, obj) && (obj.deleting ==> obj.status.uuid != "")
    case DeletingAlias(obj) => Holds(w, k, obj) && obj.deleting && obj.status.uuid != ""
    case ReconfiguringDelete(obj) =>
      Holds(w, k, obj) && obj.deleting && obj.status.uuid != "" && obj.status.uuid !in w.staged
    case RemovingFinalizer(obj) =>
      Holds(w, k, obj) && obj.deleting && (obj.status.uuid == "" || Gone(w, obj.status.uuid))
    case Creating(obj) => Holds(w, k, obj) && obj.status.uuid !in w.staged
    case LookingUp(obj) => Holds(w, k, obj) && obj.status.uuid !in w.staged
    case _ => Holds(w, k, pc.obj)
  }

  ghost predicate KeyGood(w: World, k: Key) {
    (k in w.store.objects ==> GoodObject(w, w.store.objects[k])) && PcGood(w, k, PcOf(w, k))
  }

  ghost predicate Inv(w: World) {
    Grounded(w) && forall k :: KeyGood(w, k)
  }

  // ---- Preservation ----

  lemma NameLookupIsExact(staged: Config, name: string)
    requires UniqueNames(staged)
    ensures match ByName(staged, name)
            case None => Named(staged, name) == {}
            case Some(u) => u in staged && staged[u].name == name && Named(staged, name) == {u}
  {
    var named := Named(staged, name);
    if named != {} {
      var u :| u in named;
      assert named == {u};
    }
  }

  lemma NamesStayUnique(staged: Config, u: Uuid, s: StoredAlias)
    requires UniqueNames(staged) && !NameTaken(staged, s.name, {u})
    ensures UniqueNames(staged[u := s])
  {
    forall v | v in staged && v != u
      ensures staged[v].name != s.name
    {
      assert v !in Named(staged, s.name) - {u};
    }
  }

  lemma NextKeepsGone(w: World, e: Event, u: Uuid)
    requires Grounded(w) && (forall k :: PcGood(w, k, PcOf(w, k))) && Gone(w, u)
    ensures Gone(Next(w, e), u)
  {
  }

  lemma CallKeepsGrounded(w: World, k: Key, o: Outcome)
    requires Inv(w) && Enabled(w, Call(k, o))
    ensures Grounded(Perform(w, k, o))
  {
    assert KeyGood(w, k);
    var pc := PcOf(w, k);
    if !o.Performed() {
    } else if pc.Creating? && !NameTaken(w.staged, pc.obj.spec.name, {}) {
      assert Named(w.staged, pc.obj.spec.name) - {o.uuid} == {};
      NamesStayUnique(w.staged, o.uuid, StoreNewAlias(EncodeAlias(SpecToAlias(pc.obj.spec))));
    } else if pc.Updating? && pc.uuid in w.staged && !NameTaken(w.staged, pc.obj.spec.name, {pc.uuid}) {
      NamesStayUnique(w.staged, pc.uuid, StoreOverAlias(w.staged[pc.uuid], EncodeAlias(SpecToAlias(pc.obj.spec))));
    }
  }

  /** The box's uuids only die; everything the invariant says of them survives. */
  ghost predicate Frame(w: World, w': World, k: Key) {
    && (k in w.store.objects <==> k in w'.store.objects)
    && (k in w.store.objects ==> w.store.objects[k] == w'.store.objects[k])
    && w.store.revision <= w'.store.revision
    && PcOf(w, k) == PcOf(w', k)
    && w.used <= w'.used
    && (forall u | u in w.used && u !in w.staged :: u !in w'.staged)
    && (forall u | Gone(w, u) :: Gone(w', u))
  }

  lemma FrameKeepsKey(w: World, w': World, k: Key)
    requires KeyGood(w, k) && Grounded(w') && Frame(w, w', k)
    ensures KeyGood(w', k)
  {
    assert "" !in w'.staged;
  }

  lemma LookUpKeepsOwnPc(w: World, k: Key, o: Outcome)
    requires Inv(w) && PcOf(w, k).LookingUp?
    ensures PcGood(Perform(w, k, o), k, PcAfter(w, k, o))
  {
    assert KeyGood(w, k);
    var named := Named(w.staged, PcOf(w, k).obj.spec.name);
    if |named| == 1 {
      assert TheOnly(named) in named;
    }
  }

  lemma WriteKeepsOwnPc(w: World, k: Key, o: Outcome)
    requires Inv(w) && (PcOf(w, k).Creating? || PcOf(w, k).Updating?)
    ensures PcGood(Perform(w, k, o), k, PcAfter(w, k, o))
  {
    assert KeyGood(w, k);
  }

  lemma ReadKeepsOwnPc(w: World, k: Key, o: Outcome)
    requires Inv(w) && (PcOf(w, k).Reading? || PcOf(w, k).ReadingFound?)
    ensures PcGood(Perform(w, k, o), k, PcAfter(w, k, o))
  {
    assert KeyGood(w, k);
  }

  lemma CallKeepsOwnPc(w: World, k: Key, o: Outcome)
    requires Inv(w) && Enabled(w, Call(k, o))
    ensures PcGood(Perform(w, k, o), k, PcAfter(w, k, o))
  {
    assert KeyGood(w, k);
    var pc := PcOf(w, k);
    if pc.LookingUp? {
      LookUpKeepsOwnPc(w, k, o);
    } else if pc.Creating? || pc.Updating? {
      WriteKeepsOwnPc(w, k, o);
    } else if pc.Reading? || pc.ReadingFound? {
      ReadKeepsOwnPc(w, k, o);
    }
  }

  lemma CallKeepsOwnObject(w: World, k: Key, o: Outcome)
    requires Inv(w) && Enabled(w, Call(k, o)) && k in Perform(w, k, o).store.objects
    ensures GoodObject(Perform(w, k, o), Perform(w, k, o).store.objects[k])
  {
    assert KeyGood(w, k);
  }

  lemma CallLeavesOthers(w: World, j: Key, o: Outcome, k: Key)
    requires Inv(w) && Enabled(w, Call(j, o)) && k != j
    ensures Frame(w, Perform(w, j, o), k)
  {
    assert KeyGood(w, j);
  }

  lemma CallKeepsInv(w: World, j: Key, o: Outcome)
    requires Inv(w) && Enabled(w, Call(j, o))
    ensures Inv(Perform(w, j, o))
  {
    var w' := Perform(w, j, o);
    CallKeepsGrounded(w, j, o);
    forall k
      ensures KeyGood(w', k)
    {
      if k == j {
        CallKeepsOwnPc(w, k, o);
        if k in w'.store.objects {
          CallKeepsOwnObject(w, k, o);
        }
      } else {
        CallLeavesOthers(w, j, o, k);
        FrameKeepsKey(w, w', k);
      }
    }
  }

  predicate ByUser(e: Event) {
    e.UserCreate? || e.UserEdit? || e.UserDelete? || e.OthersFinalize?
  }

  lemma UserKeepsOwnPc(w: World, e: Event)
    requires Inv(w) && Enabled(w, e) && ByUser(e)
    ensures PcGood(Act(w, e), e.key, PcOf(w, e.key))
  {
    assert KeyGood(w, e.key);
  }

  lemma UserKeepsOwnObject(w: World, e: Event)
    requires Inv(w) && Enabled(w, e) && ByUser(e) && e.key in Act(w, e).store.objects
    ensures GoodObject(Act(w, e), Act(w, e).store.objects[e.key])
  {
    assert KeyGood(w, e.key);
  }

  lemma UserLeavesOthers(w: World, e: Event, k: Key)
    requires Inv(w) && Enabled(w, e) && ByUser(e) && k != e.key
    ensures Frame(w, Act(w, e), k)
  {
  }

  lemma UserKeepsInv(w: World, e: Event)
    requires Inv(w) && Enabled(w, e) && ByUser(e)
    ensures Inv(Act(w, e))
  {
    forall k
      ensures KeyGood(Act(w, e), k)
    {
      if k == e.key {
        UserKeepsOwnPc(w, e);
        assert PcOf(Act(w, e), k) == PcOf(w, k);
        if k in Act(w, e).store.objects {
          UserKeepsOwnObject(w, e);
        }
      } else {
        UserLeavesOthers(w, e, k);
        FrameKeepsKey(w, Act(w, e), k);
      }
    }
  }

  lemma AdminKeepsInv(w: World, e: Event)
    requires Inv(w) && Enabled(w, e) && (e.AdminAdd? || e.AdminSet? || e.AdminDelete? || e.AdminApply?)
    ensures Inv(Act(w, e))
  {
    var w' := Act(w, e);
    if e.AdminAdd? {
      assert Named(w.staged, e.alias.name) - {e.uuid} == {};
      NamesStayUnique(w.staged, e.uuid, e.alias);
    } else if e.AdminSet? {
      NamesStayUnique(w.staged, e.uuid, e.alias);
    }
    forall k
      ensures KeyGood(w', k)
    {
      FrameKeepsKey(w, w', k);
    }
  }

  lemma BeginKeepsInv(w: World, e: Event)
    requires Inv(w) && Enabled(w, e) && (e.Begin? || e.Crash?)
    ensures Inv(Act(w, e))
  {
    forall k
      ensures KeyGood(Act(w, e), k)
    {
      assert KeyGood(w, k);
    }
  }

  lemma NextKeepsInv(w: World, e: Event)
    requires Inv(w)
    ensures Inv(Next(w, e))
  {
    if Enabled(w, e) {
      if e.Call? {
        CallKeepsInv(w, e.key, e.outcome);
      } else if ByUser(e) {
        UserKeepsInv(w, e);
      } else if e.Begin? || e.Crash? {
        BeginKeepsInv(w, e);
      } else {
        AdminKeepsInv(w, e);
      }
    }
  }

  lemma {:induction false} RunKeepsInv(w: World, es: seq<Event>)
    requires Inv(w)
    ensures Inv(Run(w, es))
  {
    if es != [] {
      RunKeepsInv(w, es[..|es| - 1]);
      NextKeepsInv(Run(w, es[..|es| - 1]), es[|es| - 1]);
    }
  }

  lemma ReachableInv(w0: World, es: seq<Event>)
    requires Initial(w0)
    ensures Inv(Run(w0, es))
  {
    RunKeepsInv(w0, es);
  }

  // ---- Cleanup ----

  lemma {:induction false} GoneForever(w: World, es: seq<Event>, u: Uuid)
    requires Inv(w) && Gone(w, u)
    ensures Gone(Run(w, es), u)
  {
    if es != [] {
      var init := es[..|es| - 1];
      GoneForever(w, init, u);
      RunKeepsInv(w, init);
      assert forall k :: KeyGood(Run(w, init), k) ==> PcGood(Run(w, init), k, PcOf(Run(w, init), k));
      NextKeepsGone(Run(w, init), es[|es| - 1], u);
    }
  }

  /** Only the resource's own reconcile, during deletion, drops its finalizer. */
  lemma FinalizerDropsLast(w: World, e: Event, k: Key)
    requires Inv(w) && HasFinalizer(w, k) && !HasFinalizer(Next(w, e), k)
    ensures e.Call? && e.key == k && PcOf(w, k).RemovingFinalizer? && w.store.objects[k].deleting
    ensures var u := w.store.objects[k].status.uuid; u != "" ==> Gone(Next(w, e), u)
  {
    assert KeyGood(w, k);
  }

  /** Cleanup is permanent: once the finalizer is gone, the recorded alias is neither staged nor live, forever. */
  lemma CleanupIsPermanent(w0: World, es: seq<Event>, e: Event, fs: seq<Event>, k: Key)
    requires Initial(w0)
    requires HasFinalizer(Run(w0, es), k) && Run(w0, es).store.objects[k].status.uuid != ""
    requires !HasFinalizer(Run(w0, es + [e]), k)
    ensures var u := Run(w0, es).store.objects[k].status.uuid;
            u !in Run(w0, es + [e] + fs).staged && u !in Run(w0, es + [e] + fs).live
  {
    var w := Run(w0, es);
    var u := w.store.objects[k].status.uuid;
    ReachableInv(w0, es);
    assert (es + [e])[..|es + [e]| - 1] == es;
    FinalizerDropsLast(w, e, k);
    NextKeepsInv(w, e);
    RunConcat(w0, es + [e], fs);
    GoneForever(Next(w, e), fs, u);
  }
}
