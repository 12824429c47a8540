/**
 Runs without any fault that show, for every alias, what the protocol does not notice: a new name, a
 description that was removed, and a second resource with the same alias name.
 */
module AliasScenarios {
  import opened Kube
  import opened Opnsense
  import opened AliasSpec
  import opened AliasMachine
  import opened AliasSafety
  import opened AliasReady
  import opened AliasRecovery

  const EMPTY_BOX := World(Store(map[], 0), map[], map[], {}, map[])

  // ---- One alias ----

  /** `k` is created in an empty box and reconciled. */
  function Served(k: Key, spec: Spec): World {
    Reconciled(Next(EMPTY_BOX, UserCreate(k, spec, {FINALIZER})), k, "a1")
  }

  /** And then its spec is edited. */
  function Edited(k: Key, spec: Spec, newSpec: Spec): World {
    Next(Served(k, spec), UserEdit(k, newSpec))
  }

  lemma FirstIsServed(k: Key, spec: Spec) returns (es: seq<Event>)
    requires ValidSpec(spec)
    ensures
      var w := Served(k, spec);
      && w == Run(EMPTY_BOX, es) && Inv(w)
      && Settled(w, k) && PcOf(w, k).Idle? && w.store.objects[k].status.uuid == "a1" && w.store.objects[k].spec == spec
      && w.staged == map["a1" := StoreNewAlias(EncodeAlias(SpecToAlias(spec)))] && w.used == {"a1"}
      && forall j | j != k :: j !in w.store.objects && PcOf(w, j).Idle?
  {
    var created := [UserCreate(k, spec, {FINALIZER})];
    var w0 := Next(EMPTY_BOX, created[0]);
    assert Run(EMPTY_BOX, created) == Next(Run(EMPTY_BOX, []), created[0]);
    ReachableInv(EMPTY_BOX, created);
    var rest := ReconciledIsRun(w0, k, "a1");
    es := created + rest;
    RunConcat(EMPTY_BOX, created, rest);
    ReachableInv(EMPTY_BOX, es);
    assert Named(w0.staged, spec.name) == {};
    ReconciledIsBigStep(w0, k, "a1");
    StepSettlesIff(w0, Served(k, spec), k, "a1");
    forall j | j != k
      ensures j !in Served(k, spec).store.objects && PcOf(Served(k, spec), j).Idle?
    {
      CompleteLeavesOthers(w0.(pcs := w0.pcs[k := AfterGet(w0.store, k)]), k, "a1", j);
    }
  }

  lemma EditIsRun(k: Key, spec: Spec, newSpec: Spec) returns (es: seq<Event>)
    requires ValidSpec(spec) && ValidSpec(newSpec)
    ensures
      var w := Edited(k, spec, newSpec);
      && w == Run(EMPTY_BOX, es) && Free(w, k, "a2")
      && w.store.objects[k].status.uuid == "a1" && w.store.objects[k].spec == newSpec
      && w.staged == map["a1" := StoreNewAlias(EncodeAlias(SpecToAlias(spec)))]
  {
    var before := FirstIsServed(k, spec);
    var e := UserEdit(k, newSpec);
    es := before + [e];
    assert es[..|es| - 1] == before;
  }

  /**
   The exact condition: after an edit the alias gets the new name only if that is the old one, or if the new spec
   differs in another field as well. Ready=True for the new generation is reported in any case.
   */
  lemma RenameIsFollowedIff(k: Key, spec: Spec, newSpec: Spec)
    requires ValidSpec(spec) && ValidSpec(newSpec)
    ensures
      var w, w' := Edited(k, spec, newSpec), Reconciled(Edited(k, spec, newSpec), k, "a2");
      && k in w'.store.objects && w'.store.objects[k].spec == newSpec && "a1" in w'.staged
      && w'.store.objects[k].status == ReadyStatus(w'.store.objects[k], "a1")
      && (w'.staged["a1"].name == newSpec.name <==>
            newSpec.name == spec.name || AliasNeedsUpdate(newSpec, SpecToAlias(spec)))
  {
    var es := EditIsRun(k, spec, newSpec);
    var w := Edited(k, spec, newSpec);
    CreateConverges(spec);
    assert Named(w.staged, newSpec.name) - {"a1"} == {};
    NameFollowsIff(EMPTY_BOX, es, k, "a2");
    ReachableInv(EMPTY_BOX, es);
    ReconciledIsBigStep(w, k, "a2");
  }

  /** A new name alone is ignored, for every alias: the resource settles under its old name. */
  lemma RenameIsIgnored(k: Key, spec: Spec, name: string)
    requires ValidSpec(spec) && name != "" && name != spec.name
    ensures
      var w' := Reconciled(Edited(k, spec, spec.(name := name)), k, "a2");
      && Settled(w', k) && ReadyTrue(w', k) && w'.store.objects[k].status.uuid == "a1"
      && w'.store.objects[k].spec.name == name && w'.staged["a1"].name == spec.name
  {
    var newSpec := spec.(name := name);
    var es := EditIsRun(k, spec, newSpec);
    CreateConverges(spec);
    RenameIsFollowedIff(k, spec, newSpec);
    ReachableInv(EMPTY_BOX, es);
    ReconciledIsBigStep(Edited(k, spec, newSpec), k, "a2");
  }

  /**
   A description that is removed stays on the box for good: however often the alias is reconciled, it is
   reported as ready and has drifted again.
   */
  lemma RemovedDescriptionStays(k: Key, spec: Spec, n: nat)
    requires ValidSpec(spec) && spec.description != "" && n > 0
    ensures
      var newSpec := spec.(description := "");
      var w' := Repeated(Edited(k, spec, newSpec), k, "a2", n);
      ReadyTrue(w', k) && !Settled(w', k) && Drifted(w', newSpec, "a1")
  {
    var newSpec := spec.(description := "");
    var es := EditIsRun(k, spec, newSpec);
    var w := Edited(k, spec, newSpec);
    assert Named(w.staged, newSpec.name) - {"a1"} == {};
    StuckForever(EMPTY_BOX, es, k, "a2", n);
  }

  // ---- A lost creation ----

  const LOST := Outcome(FailedAfter, "a1", map[], "", "timeout")

  /** The reply of addItem is lost, the failure is recorded, and the resource is deleted: the alias is left behind. */
  lemma DeletionLeavesAlias(k: Key, spec: Spec) returns (es: seq<Event>)
    requires ValidSpec(spec)
    ensures
      var w, w' := Run(EMPTY_BOX, es), Reconciled(Run(EMPTY_BOX, es), k, "a2");
      && HasFinalizer(w, k) && w.store.objects[k].deleting && PcOf(w, k).Idle?
      && !HasFinalizer(w', k) && "a1" in w'.staged && w'.staged["a1"].name == spec.name
  {
    var w4;
    es, w4 := UpToCreating(k, spec);
    LostReplyLeaves(w4, k, LOST);
    var w5 := Next(w4, Call(k, LOST));
    RunSnoc(EMPTY_BOX, es, Call(k, LOST));
    es := es + [Call(k, LOST)];
    FailureIsSaved(w5, k, Success("a1"));
    var w6 := Next(w5, Call(k, Success("a1")));
    RunSnoc(EMPTY_BOX, es, Call(k, Success("a1")));
    es := es + [Call(k, Success("a1"))];
    RunSnoc(EMPTY_BOX, es, UserDelete(k));
    es := es + [UserDelete(k)];
    ReachableInv(EMPTY_BOX, es);
    DeletionWithoutRecord(Next(w6, UserDelete(k)), k, "a2");
  }

  lemma UpToCreating(k: Key, spec: Spec) returns (es: seq<Event>, w: World)
    requires ValidSpec(spec)
    ensures w == Run(EMPTY_BOX, es) && Inv(w) && PcOf(w, k).Creating? && UpToDate(w, k, PcOf(w, k).obj)
    ensures PcOf(w, k).obj.spec == spec && PcOf(w, k).obj.status.uuid == "" && w.staged == map[] && w.used == {}
  {
    var ok := Call(k, Success("a1"));
    var start := [UserCreate(k, spec, {FINALIZER}), Begin(k, true)];
    var w2 := Next(Next(EMPTY_BOX, start[0]), start[1]);
    RunSnoc(EMPTY_BOX, [], start[0]);
    RunSnoc(EMPTY_BOX, [start[0]], start[1]);
    assert [] + [start[0]] == [start[0]] && [start[0]] + [start[1]] == start;
    RunSnoc(EMPTY_BOX, start, ok);
    RunSnoc(EMPTY_BOX, start + [ok], ok);
    es := start + [ok] + [ok];
    NothingFound(w2, k);
    w := Next(Next(w2, ok), ok);
    ReachableInv(EMPTY_BOX, es);
  }

  lemma NothingFound(w: World, k: Key)
    requires PcOf(w, k).Connecting? && !PcOf(w, k).obj.deleting && PcOf(w, k).obj.status.uuid == "" && w.staged == map[]
    ensures
      var w' := Next(Next(w, Call(k, Success("a1"))), Call(k, Success("a1")));
      && PcOf(w', k) == Creating(PcOf(w, k).obj) && w'.store == w.store && w'.staged == map[] && w'.used == w.used
  {
    assert Named(map[], PcOf(w, k).obj.spec.name) == {};
  }

  lemma RunSnoc(w: World, es: seq<Event>, e: Event)
    ensures Run(w, es + [e]) == Next(Run(w, es), e)
  {
    assert (es + [e])[..|es + [e]| - 1] == es;
  }

  // ---- Two resources ----

  /** `k` is created and reconciled, and then `j` is. Nothing fails. */
  function Neighbours(k: Key, kSpec: Spec, j: Key, jSpec: Spec): World {
    Reconciled(Next(Served(k, kSpec), UserCreate(j, jSpec, {FINALIZER})), j, "a2")
  }

  lemma NeighboursIsRun(k: Key, kSpec: Spec, j: Key, jSpec: Spec) returns (es: seq<Event>)
    requires ValidSpec(kSpec) && ValidSpec(jSpec) && j != k
    ensures
      var w := Neighbours(k, kSpec, j, jSpec);
      && w == Run(EMPTY_BOX, es) && Inv(w) && PcOf(w, j).Idle? && "a1" in w.staged
      && k in w.store.objects && w.store.objects[k].status.uuid == "a1" && ReadyTrue(w, k)
      && HasFinalizer(w, j) && !w.store.objects[j].deleting && ReadyTrue(w, j)
      && w.store.objects[j].status.uuid == (if jSpec.name == kSpec.name then "a1" else "a2")
  {
    var before := FirstIsServed(k, kSpec);
    var e := UserCreate(j, jSpec, {FINALIZER});
    var w1, w2 := Served(k, kSpec), Next(Served(k, kSpec), e);
    NextKeepsInv(w1, e);
    var rest := ReconciledIsRun(w2, j, "a2");
    assert (before + [e])[..|before|] == before;
    RunConcat(EMPTY_BOX, before + [e], rest);
    es := before + [e] + rest;
    ReachableInv(EMPTY_BOX, es);
    SecondFinds(w2, kSpec, j);
    ReconciledIsBigStep(w2, j, "a2");
    CompleteLeavesOthers(w2.(pcs := w2.pcs[j := AfterGet(w2.store, j)]), j, "a2", k);
  }

  lemma SecondFinds(w: World, kSpec: Spec, j: Key)
    requires w.staged == map["a1" := StoreNewAlias(EncodeAlias(SpecToAlias(kSpec)))]
    requires j in w.store.objects && w.store.objects[j].status.uuid == ""
    ensures Found(w, j) == if w.store.objects[j].spec.name == kSpec.name then Some("a1") else None
    ensures !NameClash(w, j)
  {
    var name := w.store.objects[j].spec.name;
    assert Named(w.staged, name) == if name == kSpec.name then {"a1"} else {};
    assert name == kSpec.name ==> TheOnly(Named(w.staged, name)) == "a1";
    assert Named(w.staged, name) - {"a1"} == {};
  }

  /**
   Two resources that are new to an empty box share one alias exactly if they ask for the same name, and then
   deleting the second deletes the alias of the first, from staged and live, while the first still reports
   Ready=True for it.
   */
  lemma SharedNameIff(k: Key, kSpec: Spec, j: Key, jSpec: Spec)
    requires ValidSpec(kSpec) && ValidSpec(jSpec) && j != k
    ensures
      var w := Neighbours(k, kSpec, j, jSpec);
      var w' := Reconciled(Next(w, UserDelete(j)), j, "a3");
      && k in w.store.objects && j in w.store.objects && ReadyTrue(w, k) && ReadyTrue(w, j)
      && (w.store.objects[j].status.uuid == w.store.objects[k].status.uuid <==> jSpec.name == kSpec.name)
      && k in w'.store.objects && w'.store.objects[k] == w.store.objects[k] && !HasFinalizer(w', j)
      && (if jSpec.name == kSpec.name then "a1" !in w'.staged && "a1" !in w'.live else "a1" in w'.staged)
  {
    var es := NeighboursIsRun(k, kSpec, j, jSpec);
    var w := Neighbours(k, kSpec, j, jSpec);
    var w1 := Next(w, UserDelete(j));
    NextKeepsInv(w, UserDelete(j));
    DeletionRemovesAlias(w1, j, "a3");
    CompleteLeavesOthers(w1.(pcs := w1.pcs[j := AfterGet(w1.store, j)]), j, "a3", k);
  }

  /**
   Resources with different names share an alias too: a resource whose new name was ignored still has the alias
   under its old name, and the next resource that asks for that name adopts it. Nothing fails.
   */
  lemma RenamedAliasIsShared(k: Key, spec: Spec, name: string, j: Key, jSpec: Spec) returns (es: seq<Event>)
    requires ValidSpec(spec) && ValidSpec(jSpec) && j != k
    requires name != "" && name != spec.name && jSpec.name == spec.name
    ensures
      var renamed := Reconciled(Edited(k, spec, spec.(name := name)), k, "a2");
      var w := Reconciled(Next(renamed, UserCreate(j, jSpec, {FINALIZER})), j, "a3");
      && w == Run(EMPTY_BOX, es)
      && ReadyTrue(w, k) && w.store.objects[k].status.uuid == "a1" && w.store.objects[k].spec.name == name
      && ReadyTrue(w, j) && w.store.objects[j].status.uuid == "a1" && w.store.objects[j].spec.name == spec.name
  {
    var newSpec, e := spec.(name := name), UserCreate(j, jSpec, {FINALIZER});
    var edits := EditIsRun(k, spec, newSpec);
    var w0 := Edited(k, spec, newSpec);
    var rest := ReconciledIsRun(w0, k, "a2");
    RunConcat(EMPTY_BOX, edits, rest);
    ReachableInv(EMPTY_BOX, edits + rest);
    RenameIsIgnored(k, spec, name);
    var w1 := Reconciled(w0, k, "a2");
    var w2 := Next(w1, e);
    OnlyEdited(k, spec, newSpec, j);
    var before := edits + rest + [e];
    assert before[..|before| - 1] == edits + rest;
    var last := ReconciledIsRun(w2, j, "a3");
    RunConcat(EMPTY_BOX, before, last);
    es := before + last;
    NextKeepsInv(w1, e);
    FoundByName(w2, j, "a1");
    ReconciledIsBigStep(w2, j, "a3");
    CompleteLeavesOthers(w2.(pcs := w2.pcs[j := AfterGet(w2.store, j)]), j, "a3", k);
  }

  lemma OnlyEdited(k: Key, spec: Spec, newSpec: Spec, j: Key)
    requires ValidSpec(spec) && ValidSpec(newSpec) && j != k
    ensures
      var w := Reconciled(Edited(k, spec, newSpec), k, "a2");
      j !in w.store.objects && PcOf(w, j).Idle? && w.used == {"a1"}
  {
    var before := FirstIsServed(k, spec);
    var es := EditIsRun(k, spec, newSpec);
    var w := Edited(k, spec, newSpec);
    ReachableInv(EMPTY_BOX, es);
    ReconciledIsBigStep(w, k, "a2");
    CompleteLeavesOthers(w.(pcs := w.pcs[k := AfterGet(w.store, k)]), k, "a2", j);
  }
}
