/**
 Ownership of aliases: when every alias name belongs to one resource, over the whole run, no two resources ever
 share an alias.
 */
module AliasOwnership {
  import opened Kube
  import opened Opnsense
  import opened AliasMachine
  import opened AliasSafety

  // ---- The naming condition ----

  /** `k` may ask for `name`. A resource may own several names, as it may be renamed. */
  predicate Owns(owners: map<string, Key>, k: Key, name: string) {
    name in owners && owners[name] == k
  }

  /** Users give a resource only names that it owns, and administrators rename no alias to a name that is owned. */
  predicate Separated(owners: map<string, Key>, w: World, e: Event) {
    match e
    case UserCreate(k, spec, _) => Owns(owners, k, spec.name)
    case UserEdit(k, spec) => Owns(owners, k, spec.name)
    case AdminSet(u, s) => (u in w.staged && s.name == w.staged[u].name) || s.name !in owners
    case _ => true
  }

  predicate SeparatedRun(owners: map<string, Key>, w: World, es: seq<Event>) {
    forall i | 0 <= i < |es| :: Separated(owners, Run(w, es[..i]), es[i])
  }

  // ---- Who has a stake in an alias ----

  /** The running reconcile is working on alias `u`. */
  predicate WorksOn(pc: Pc, u: Uuid) {
    (pc.ReadingFound? || pc.Updating? || pc.Reconfiguring? || pc.SavingReady?) && pc.uuid == u
  }

  /** `u` has a name that `k` owns, is recorded in its status, or is in the hands of its reconcile. */
  predicate Claims(owners: map<string, Key>, w: World, k: Key, u: Uuid) {
    u != "" &&
    (|| (u in w.staged && Owns(owners, k, w.staged[u].name))
     || (k in w.store.objects && w.store.objects[k].status.uuid == u)
     || WorksOn(PcOf(w, k), u))
  }

  ghost predicate Exclusive(owners: map<string, Key>, w: World) {
    forall j, k, u | j != k :: !(Claims(owners, w, j, u) && Claims(owners, w, k, u))
  }

  ghost predicate NamesOwned(owners: map<string, Key>, w: World) {
    && (forall k | k in w.store.objects :: Owns(owners, k, w.store.objects[k].spec.name))
    && (forall k | !PcOf(w, k).Idle? :: Owns(owners, k, PcOf(w, k).obj.spec.name))
  }

  ghost predicate Own(owners: map<string, Key>, w: World) {
    Inv(w) && NamesOwned(owners, w) && Exclusive(owners, w)
  }

  // ---- Preservation ----

  lemma ClaimsAreUsed(owners: map<string, Key>, w: World, k: Key, u: Uuid)
    requires Inv(w) && Claims(owners, w, k, u)
    ensures u in w.used
  {
    assert KeyGood(w, k);
  }

  /** What a reconcile takes into its hands is recorded, has a name it owns, or is fresh. */
  lemma HandlesOwnAliases(owners: map<string, Key>, w: World, k: Key, o: Outcome, u: Uuid)
    requires Own(owners, w) && Enabled(w, Call(k, o)) && WorksOn(PcAfter(w, k, o), u) && u != ""
    ensures Claims(owners, w, k, u) || (PcOf(w, k).Creating? && u == o.uuid)
  {
    var pc := PcOf(w, k);
    assert KeyGood(w, k);
    if pc.LookingUp? {
      NameLookupIsExact(w.staged, pc.obj.spec.name);
    }
  }

  /** The alias that a reconcile writes gets a name that its resource owns. */
  lemma WrittenName(w: World, k: Key, o: Outcome, u: Uuid)
    requires u in StagedAfter(w, k, o) && !(u in w.staged && StagedAfter(w, k, o)[u] == w.staged[u])
    ensures !PcOf(w, k).Idle? && StagedAfter(w, k, o)[u].name == PcOf(w, k).obj.spec.name
    ensures WorksOn(PcOf(w, k), u) || (PcOf(w, k).Creating? && u == o.uuid)
  {
  }

  lemma RecordsOwnAliases(w: World, k: Key, o: Outcome)
    requires Inv(w) && !PcOf(w, k).Idle? && k in Perform(w, k, o).store.objects
    ensures k in w.store.objects
    ensures var u := Perform(w, k, o).store.objects[k].status.uuid;
            u == w.store.objects[k].status.uuid || WorksOn(PcOf(w, k), u)
  {
    assert KeyGood(w, k);
  }

  lemma OwnClaimsGrow(owners: map<string, Key>, w: World, k: Key, o: Outcome, u: Uuid)
    requires Own(owners, w) && Enabled(w, Call(k, o))
    requires Claims(owners, Perform(w, k, o), k, u) && !Claims(owners, w, k, u)
    ensures u !in w.used
  {
    if WorksOn(PcAfter(w, k, o), u) {
      HandlesOwnAliases(owners, w, k, o, u);
    } else if u in StagedAfter(w, k, o) && Owns(owners, k, StagedAfter(w, k, o)[u].name) {
      WrittenName(w, k, o, u);
    } else {
      RecordsOwnAliases(w, k, o);
    }
  }

  /** Nobody else's call gives `k` a claim. */
  lemma OthersCallGrantsNoClaim(owners: map<string, Key>, w: World, j: Key, o: Outcome, k: Key, u: Uuid)
    requires Own(owners, w) && Enabled(w, Call(j, o)) && j != k && Claims(owners, Perform(w, j, o), k, u)
    ensures Claims(owners, w, k, u)
  {
    CallLeavesOthers(w, j, o, k);
    if u in StagedAfter(w, j, o) && !(u in w.staged && StagedAfter(w, j, o)[u] == w.staged[u]) {
      WrittenName(w, j, o, u);
    }
  }

  /** A resource comes to claim only new aliases, by its own reconcile or by an addition under one of its names. */
  lemma ClaimsGrow(owners: map<string, Key>, w: World, e: Event, k: Key, u: Uuid)
    requires Own(owners, w) && Enabled(w, e) && Separated(owners, w, e)
    requires Claims(owners, Act(w, e), k, u) && !Claims(owners, w, k, u)
    ensures u !in w.used && ((e.Call? && e.key == k) || (e.AdminAdd? && Owns(owners, k, e.alias.name)))
  {
    if e.Call? && e.key == k {
      OwnClaimsGrow(owners, w, k, e.outcome, u);
    } else if e.Call? {
      OthersCallGrantsNoClaim(owners, w, e.key, e.outcome, k, u);
    }
  }

  lemma NextKeepsExclusive(owners: map<string, Key>, w: World, e: Event)
    requires Own(owners, w) && Enabled(w, e) && Separated(owners, w, e)
    ensures Exclusive(owners, Act(w, e))
  {
    var w' := Act(w, e);
    forall j, k, u | j != k && Claims(owners, w', j, u)
      ensures !Claims(owners, w', k, u)
    {
      if Claims(owners, w', k, u) {
        if Claims(owners, w, j, u) {
          ClaimsAreUsed(owners, w, j, u);
        }
        if Claims(owners, w, k, u) {
          ClaimsAreUsed(owners, w, k, u);
        } else {
          ClaimsGrow(owners, w, e, k, u);
        }
        if !Claims(owners, w, j, u) {
          ClaimsGrow(owners, w, e, j, u);
        }
        assert false;
      }
    }
  }

  lemma CallKeepsNamesOwned(owners: map<string, Key>, w: World, j: Key, o: Outcome)
    requires NamesOwned(owners, w) && Enabled(w, Call(j, o))
    ensures NamesOwned(owners, Perform(w, j, o))
  {
    var w' := Perform(w, j, o);
    forall k | k in w'.store.objects
      ensures Owns(owners, k, w'.store.objects[k].spec.name)
    {
      SpecSurvivesCall(w, j, o, k);
    }
    PcKeepsCopy(w, j, o);
    assert forall k | k != j :: PcOf(w', k) == PcOf(w, k);
  }

  lemma SpecSurvivesCall(w: World, j: Key, o: Outcome, k: Key)
    requires k in Perform(w, j, o).store.objects
    ensures k in w.store.objects && Perform(w, j, o).store.objects[k].spec == w.store.objects[k].spec
  {
  }

  lemma PcKeepsCopy(w: World, k: Key, o: Outcome)
    requires !PcOf(w, k).Idle?
    ensures PcAfter(w, k, o).Idle? || PcAfter(w, k, o).obj == PcOf(w, k).obj
  {
  }

  lemma UserSetsSpec(w: World, e: Event, k: Key)
    requires Enabled(w, e) && ByUser(e) && k in Act(w, e).store.objects
    ensures
      var spec := Act(w, e).store.objects[k].spec;
      || (k in w.store.objects && spec == w.store.objects[k].spec)
      || (k == e.key && (e.UserCreate? || e.UserEdit?) && spec == e.spec)
  {
  }

  lemma UserKeepsNamesOwned(owners: map<string, Key>, w: World, e: Event)
    requires NamesOwned(owners, w) && Enabled(w, e) && Separated(owners, w, e) && ByUser(e)
    ensures NamesOwned(owners, Act(w, e))
  {
    assert forall k :: PcOf(Act(w, e), k) == PcOf(w, k);
    forall k | k in Act(w, e).store.objects
      ensures Owns(owners, k, Act(w, e).store.objects[k].spec.name)
    {
      UserSetsSpec(w, e, k);
    }
  }

  lemma OthersKeepNamesOwned(owners: map<string, Key>, w: World, e: Event)
    requires NamesOwned(owners, w) && Enabled(w, e) && !e.Call? && !ByUser(e)
    ensures NamesOwned(owners, Act(w, e))
  {
    if e.Begin? || e.Crash? {
      assert forall k | k != e.key :: PcOf(Act(w, e), k) == PcOf(w, k);
    } else {
      assert forall k :: PcOf(Act(w, e), k) == PcOf(w, k);
    }
  }

  lemma NextKeepsOwn(owners: map<string, Key>, w: World, e: Event)
    requires Own(owners, w) && Separated(owners, w, e)
    ensures Own(owners, Next(w, e))
  {
    NextKeepsInv(w, e);
    if Enabled(w, e) {
      NextKeepsExclusive(owners, w, e);
      if e.Call? {
        CallKeepsNamesOwned(owners, w, e.key, e.outcome);
      } else if ByUser(e) {
        UserKeepsNamesOwned(owners, w, e);
      } else {
        OthersKeepNamesOwned(owners, w, e);
      }
    }
  }

  lemma {:induction false} RunKeepsOwn(owners: map<string, Key>, w: World, es: seq<Event>)
    requires Own(owners, w) && SeparatedRun(owners, w, es)
    ensures Own(owners, Run(w, es))
  {
    if es != [] {
      var init := es[..|es| - 1];
      assert forall i | 0 <= i < |init| :: init[..i] == es[..i];
      RunKeepsOwn(owners, w, init);
      NextKeepsOwn(owners, Run(w, init), es[|es| - 1]);
    }
  }

  lemma ReachableOwn(owners: map<string, Key>, w0: World, es: seq<Event>)
    requires Initial(w0) && SeparatedRun(owners, w0, es)
    ensures Own(owners, Run(w0, es))
  {
    ReachableInv(w0, []);
    RunKeepsOwn(owners, w0, es);
  }

  // ---- The ownership theorems ----

  /** Two resources never record the same alias. */
  lemma AliasesAreNotShared(owners: map<string, Key>, w0: World, es: seq<Event>, j: Key, k: Key)
    requires Initial(w0) && SeparatedRun(owners, w0, es)
    requires var objects := Run(w0, es).store.objects; j in objects && k in objects && j != k
    ensures var objects := Run(w0, es).store.objects;
            objects[j].status.uuid != "" ==> objects[j].status.uuid != objects[k].status.uuid
  {
    ReachableOwn(owners, w0, es);
    var w := Run(w0, es);
    var u := w.store.objects[j].status.uuid;
    assert u != "" ==> Claims(owners, w, j, u);
    assert u != "" && w.store.objects[k].status.uuid == u ==> Claims(owners, w, k, u);
  }

  /** What a reconcile changes is an alias it claims, or one under a fresh uuid. */
  lemma ChangesOwnAlias(owners: map<string, Key>, w: World, j: Key, o: Outcome, u: Uuid)
    requires Inv(w) && Enabled(w, Call(j, o))
    requires
      var staged := StagedAfter(w, j, o);
      (u in w.staged <==> u in staged) ==> u in w.staged && staged[u] != w.staged[u]
    ensures u != "" && (Claims(owners, w, j, u) || u !in w.used)
  {
    assert KeyGood(w, j);
  }

  /**
   A reconcile creates, updates and deletes only its own aliases: one that was there is one it claims, and none
   that it changes has a name owned by another resource or is recorded by one.
   */
  lemma OnlyOwnersWrite(owners: map<string, Key>, w0: World, es: seq<Event>, j: Key, o: Outcome, u: Uuid)
    requires Initial(w0) && SeparatedRun(owners, w0, es)
    requires
      var w, w' := Run(w0, es), Next(Run(w0, es), Call(j, o));
      (u in w.staged <==> u in w'.staged) ==> u in w.staged && w'.staged[u] != w.staged[u]
    ensures
      var w, w' := Run(w0, es), Next(Run(w0, es), Call(j, o));
      && (u in w.staged ==> Claims(owners, w, j, u))
      && (u in w'.staged ==> Owns(owners, j, w'.staged[u].name))
      && (forall k | k != j ::
            && (u in w.staged ==> !Owns(owners, k, w.staged[u].name))
            && (k in w.store.objects ==> w.store.objects[k].status.uuid != u))
  {
    ReachableOwn(owners, w0, es);
    var w := Run(w0, es);
    ChangesOwnAlias(owners, w, j, o, u);
    if u in StagedAfter(w, j, o) {
      WrittenName(w, j, o, u);
    }
    forall k | k != j
      ensures !Claims(owners, w, k, u)
    {
      if Claims(owners, w, k, u) {
        ClaimsAreUsed(owners, w, k, u);
        assert false;
      }
    }
    assert forall k | u in w.staged && Owns(owners, k, w.staged[u].name) :: Claims(owners, w, k, u);
    assert forall k | k in w.store.objects && w.store.objects[k].status.uuid == u :: Claims(owners, w, k, u);
  }
}
