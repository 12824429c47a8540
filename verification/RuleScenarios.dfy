/**
 Runs that show, for every resource, what the protocol does not prevent: Ready=True for a rule that is not
 live, a rule that outlives its resource, and a rule that one resource takes away from another.
 */
module RuleScenarios {
  import opened Text
  import opened Kube
  import opened Opnsense
  import opened RuleSpec
  import opened RuleNames
  import opened RuleMachine
  import opened RuleSafety
  import opened RuleRecovery
  import opened RuleContention
  import opened RuleDrift
  import opened RuleLive
  import opened RuleReady

  const EMPTY_BOX := World(Store(map[], 0), map[], map[], {}, map[])

  /** addRule succeeds, the apply after it fails or its reply is lost, and the failure is recorded. */
  function FailedApplyRun(k: Key, spec: Spec, fate: Fate): seq<Event> {
    var ok := Success("u1", "100");
    [UserCreate(k, spec, {FINALIZER}), Begin(k, true),
     Call(k, ok), Call(k, ok), Call(k, ok), Call(k, Outcome(fate, "", "", map[], "", "timeout")), Call(k, ok)]
  }

  /** After that, for every resource, one fault-free reconcile reports Ready=True for a rule that is not live. */
  lemma ReadyWithoutLive(k: Key, spec: Spec)
    requires ValidKey(k)
    ensures
      var w' := Reconciled(Run(EMPTY_BOX, FailedApplyRun(k, spec, FailedBefore)), k, "u2", "200");
      Settled(w', k) && !RuleIsLive(w', w'.store.objects[k].status.uuid)
  {
    var es := FailedApplyRun(k, spec, FailedBefore);
    var stored := StoreNew(EncodeFirewallRule(SpecToRule(spec, k)), "100");
    var w := Run(EMPTY_BOX, es);
    FailedApplyLeaves(k, spec, FailedBefore);
    CreateConverges(spec, k, "100");
    ManagedDescriptionBears(spec.description, k);
    BearersMatch(stored.description, k);
    assert Hits(w.staged, k) == {"u1"};
    assert TheOnly(Hits(w.staged, k)) == "u1";
    ReachableInv(EMPTY_BOX, es);
    ReconciledAchieves(w, k, "u2", "200");
  }

  /** And if the resource is deleted instead, a fault-free deletion removes the resource and leaves its rule behind. */
  lemma DeletionLeavesRule(k: Key, spec: Spec)
    requires ValidKey(k)
    ensures
      var w := Run(EMPTY_BOX, FailedApplyRun(k, spec, FailedBefore) + [UserDelete(k)]);
      var w' := Reconciled(w, k, "u2", "200");
      k in w.store.objects && k !in w'.store.objects && Marked(w', "u1", k)
  {
    var es := FailedApplyRun(k, spec, FailedBefore);
    var w0 := Run(EMPTY_BOX, es);
    FailedApplyLeaves(k, spec, FailedBefore);
    assert (es + [UserDelete(k)])[..|es|] == es;
    var w := Next(w0, UserDelete(k));
    assert Run(EMPTY_BOX, es + [UserDelete(k)]) == w;
    UnrecordedDeletion(w, k);
    ManagedDescriptionBears(spec.description, k);
  }

  /**
   Even a rule that nobody sees in the staged configuration can outlive its resource: the apply's reply is lost, the
   administrator deletes the staged rule without applying, and the resource is deleted. The rule is still live.
   */
  lemma DeletionLeavesLiveRule(k: Key, spec: Spec)
    requires ValidKey(k)
    ensures
      var w := Run(EMPTY_BOX, FailedApplyRun(k, spec, FailedAfter) + [AdminDelete("u1"), UserDelete(k)]);
      var w' := Reconciled(w, k, "u2", "200");
      && k in w.store.objects && NoneMarked(w, k)
      && k !in w'.store.objects && "u1" in w'.live && Bears(w'.live["u1"].description, k)
  {
    var es := FailedApplyRun(k, spec, FailedAfter);
    var w0 := Run(EMPTY_BOX, es);
    FailedApplyLeaves(k, spec, FailedAfter);
    RunConcat(EMPTY_BOX, es, [AdminDelete("u1"), UserDelete(k)]);
    RunTwo(w0, AdminDelete("u1"), UserDelete(k));
    DeletedUnseen(w0, k);
    ManagedDescriptionBears(spec.description, k);
  }

  lemma DeletedUnseen(w: World, k: Key)
    requires PcOf(w, k).Idle? && k in w.store.objects && !w.store.objects[k].deleting && w.staged.Keys == {"u1"}
    requires w.store.objects[k].finalizers == {FINALIZER} && w.store.objects[k].status.uuid == ""
    ensures
      var w1 := Next(Next(w, AdminDelete("u1")), UserDelete(k));
      var w' := Reconciled(w1, k, "u2", "200");
      k in w1.store.objects && NoneMarked(w1, k) && k !in w'.store.objects && w'.live == w.live
  {
    assert w.staged - {"u1"} == map[];
    UnrecordedDeletion(Next(Next(w, AdminDelete("u1")), UserDelete(k)), k);
  }

  lemma RunTwo(w: World, e: Event, f: Event)
    ensures Run(w, [e, f]) == Next(Next(w, e), f)
  {
    RunFirst(w, [e, f]);
    RunFirst(Next(w, e), [f]);
    assert [e, f][1..] == [f] && [f][1..] == [];
  }

  lemma UnrecordedDeletion(w: World, k: Key)
    requires PcOf(w, k).Idle? && k in w.store.objects
    requires var obj := w.store.objects[k]; obj.deleting && obj.finalizers == {FINALIZER} && obj.status.uuid == ""
    ensures
      var w' := Reconciled(w, k, "u2", "200");
      k !in w'.store.objects && w'.staged == w.staged && w'.live == w.live
  {
    var o := Success("u2", "200");
    var w1 := w.(pcs := w.pcs[k := AfterGet(w.store, k)]);
    var w2 := Perform(w1, k, o);
    assert PcOf(w1, k) == RemovingFinalizer(w.store.objects[k]);
    assert w.store.objects[k].finalizers - {FINALIZER} == {};
    assert Complete(w1, k, "u2", "200") == Complete(w2, k, "u2", "200") == w2;
  }

  // ---- Neighbours ----

  /** `k` is created and reconciled, and then `j` is. Nothing fails. */
  function Neighbours(k: Key, kSpec: Spec, j: Key, jSpec: Spec): World {
    var w1 := Reconciled(Next(EMPTY_BOX, UserCreate(k, kSpec, {FINALIZER})), k, "u1", "100");
    Reconciled(Next(w1, UserCreate(j, jSpec, {FINALIZER})), j, "u2", "200")
  }

  /** The first resource of an empty box gets its rule. */
  lemma FirstIsServed(k: Key, spec: Spec) returns (es: seq<Event>)
    requires ValidKey(k)
    ensures
      var w := Reconciled(Next(EMPTY_BOX, UserCreate(k, spec, {FINALIZER})), k, "u1", "100");
      && w == Run(EMPTY_BOX, es)
      && Settled(w, k) && w.staged.Keys == {"u1"} && w.used <= {"u1"}
      && w.store.objects[k].status.uuid == "u1" && w.store.objects[k].spec == spec
      && forall j | j != k :: j !in w.store.objects && PcOf(w, j).Idle?
  {
    var created := [UserCreate(k, spec, {FINALIZER})];
    var w0 := Next(EMPTY_BOX, created[0]);
    assert Run(EMPTY_BOX, created) == Next(Run(EMPTY_BOX, []), created[0]);
    ReachableInv(EMPTY_BOX, created);
    var rest := ReconciledIsRun(w0, k, "u1", "100");
    es := created + rest;
    RunConcat(EMPTY_BOX, created, rest);
    FirstHasNoHits(k, spec);
    ReconciledAchieves(w0, k, "u1", "100");
    var w1 := w0.(pcs := w0.pcs[k := AfterGet(w0.store, k)]);
    CompleteEnds(w1, k, "u1", "100");
    forall j | j != k
      ensures j !in Complete(w1, k, "u1", "100").store.objects && PcOf(Complete(w1, k, "u1", "100"), j).Idle?
    {
      CompleteLeavesOthers(w1, k, "u1", "100", j);
    }
  }

  lemma FirstHasNoHits(k: Key, spec: Spec)
    requires ValidKey(k)
    ensures
      var w := Next(EMPTY_BOX, UserCreate(k, spec, {FINALIZER}));
      && HasFinalizer(w, k) && !w.store.objects[k].deleting && PcOf(w, k).Idle?
      && w.store.objects.Keys == {k} && w.pcs == map[] && w.used == {} && w.staged == map[] && w.live == map[]
      && w.store.objects[k].spec == spec && w.store.objects[k].status.uuid == "" && Hits(w.staged, k) == {}
  {
    assert Hits(map[], k) == {};
  }

  /**
   The exact naming condition: though nothing fails, the second of two resources ends up with the rule of the
   first, whose status still reports Ready=True for it, if and only if the first one's text or name
   contains the phrase of the second. Otherwise each has its own.
   */
  lemma NeighbourTakesOverIff(k: Key, kSpec: Spec, j: Key, jSpec: Spec) returns (es: seq<Event>)
    requires ValidKey(k) && ValidKey(j) && j != k
    ensures Neighbours(k, kSpec, j, jSpec) == Run(EMPTY_BOX, es)
    ensures
      var w := Neighbours(k, kSpec, j, jSpec);
      && k in w.store.objects && w.store.objects[k].status.uuid == "u1"
      && ReadyTrue(w, k) && Settled(w, j) && "u1" in w.staged
      && if Matches(kSpec.description, Phrase(j)) || Nested(j, k)
         then w.store.objects[j].status.uuid == "u1" && NoneMarked(w, k)
         else w.store.objects[j].status.uuid == "u2" && Marked(w, "u1", k)
  {
    var before := FirstIsServed(k, kSpec);
    var e := UserCreate(j, jSpec, {FINALIZER});
    var w1 := Run(EMPTY_BOX, before);
    var w2 := Next(w1, e);
    ReachableInv(EMPTY_BOX, before);
    NextKeepsInv(w1, e);
    var rest := ReconciledIsRun(w2, j, "u2", "200");
    RunConcat(EMPTY_BOX, before, [e]);
    assert Run(w1, [e]) == Next(Run(w1, []), e);
    RunConcat(EMPTY_BOX, before + [e], rest);
    es := before + [e] + rest;
    CompleteLeavesOthers(w2.(pcs := w2.pcs[j := AfterGet(w2.store, j)]), j, "u2", "200", k);
    ManagedDescriptionBears(kSpec.description, k);
    SecondIsServed(w2, k, kSpec, j);
  }

  lemma SecondIsServed(w: World, k: Key, kSpec: Spec, j: Key)
    requires Inv(w) && ValidKey(k) && ValidKey(j) && j != k && HasFinalizer(w, j) && PcOf(w, j).Idle?
    requires !w.store.objects[j].deleting && w.store.objects[j].status.uuid == ""
    requires w.staged.Keys == {"u1"} && "u2" !in w.used
    requires w.staged["u1"].description == ManagedDescription(kSpec.description, k)
    ensures
      var w' := Reconciled(w, j, "u2", "200");
      && Settled(w', j) && "u1" in w'.staged
      && if Matches(kSpec.description, Phrase(j)) || Nested(j, k)
         then w'.store.objects[j].status.uuid == "u1" && NoneMarked(w', k)
         else w'.store.objects[j].status.uuid == "u2" && Marked(w', "u1", k)
  {
    ManagedDescriptionBears(kSpec.description, k);
    SecondHits(w, k, kSpec, j);
    if Hits(w.staged, j) == {} {
      SecondGetsItsOwn(w, k, j);
    } else {
      SecondTakesOver(w, k, j);
    }
  }

  lemma SecondGetsItsOwn(w: World, k: Key, j: Key)
    requires Inv(w) && ValidKey(k) && ValidKey(j) && HasFinalizer(w, j) && PcOf(w, j).Idle?
    requires !w.store.objects[j].deleting && w.store.objects[j].status.uuid == ""
    requires Marked(w, "u1", k) && "u2" !in w.used && Hits(w.staged, j) == {}
    ensures var w' := Reconciled(w, j, "u2", "200");
            Settled(w', j) && w'.store.objects[j].status.uuid == "u2" && Marked(w', "u1", k)
  {
    ReconciledAchieves(w, j, "u2", "200");
    assert Found(w, j) == None;
  }

  lemma SecondTakesOver(w: World, k: Key, j: Key)
    requires Inv(w) && ValidKey(k) && ValidKey(j) && j != k && HasFinalizer(w, j) && PcOf(w, j).Idle?
    requires !w.store.objects[j].deleting && w.store.objects[j].status.uuid == ""
    requires w.staged.Keys == {"u1"} && "u2" !in w.used && Hits(w.staged, j) == {"u1"}
    ensures var w' := Reconciled(w, j, "u2", "200");
            Settled(w', j) && "u1" in w'.staged && w'.store.objects[j].status.uuid == "u1" && NoneMarked(w', k)
  {
    assert TheOnly(Hits(w.staged, j)) == "u1";
    assert Found(w, j) == Some("u1");
    ReconciledAchieves(w, j, "u2", "200");
    OnlyTagOfSecond(Reconciled(w, j, "u2", "200"), j, k);
  }

  lemma SecondHits(w: World, k: Key, kSpec: Spec, j: Key)
    requires ValidKey(k) && ValidKey(j)
    requires w.staged.Keys == {"u1"} && w.staged["u1"].description == ManagedDescription(kSpec.description, k)
    ensures Hits(w.staged, j) == if Matches(kSpec.description, Phrase(j)) || Nested(j, k) then {"u1"} else {}
  {
    ManagedIsHitIff(kSpec.description, k, j);
    assert Hits(w.staged, j) <= {"u1"};
  }

  lemma OnlyTagOfSecond(w: World, j: Key, k: Key)
    requires ValidKey(j) && ValidKey(k) && j != k && Settled(w, j) && w.staged.Keys == {"u1"}
    ensures NoneMarked(w, k)
  {
    ManagedDescriptionBears(w.store.objects[j].spec.description, j);
    OnlyOneTag(w, "u1", j, k);
  }

  /** The two then undo each other forever: whoever was reconciled last has the rule, and the other lost it. */
  lemma NeighboursFightForever(k: Key, kSpec: Spec, j: Key, jSpec: Spec, ws: seq<World>, i: nat)
    requires ValidKey(k) && ValidKey(j) && j != k && (Matches(kSpec.description, Phrase(j)) || Nested(j, k))
    requires InTurns(ws, k, j, "u3", "300") && ws[0] == Neighbours(k, kSpec, j, jSpec) && 0 < i < |ws|
    ensures Contested(ws[i], k, j, "u1") && Won(ws[i], Turn(k, j, i), Turn(k, j, i + 1), "u1")
  {
    var es := NeighbourTakesOverIff(k, kSpec, j, jSpec);
    NeighboursRest(k, kSpec, j, jSpec);
    FightForever(EMPTY_BOX, es, ws, k, j, "u1", "u3", "300", i);
  }

  lemma NeighboursRest(k: Key, kSpec: Spec, j: Key, jSpec: Spec)
    requires ValidKey(k) && ValidKey(j) && j != k
    ensures
      var w := Neighbours(k, kSpec, j, jSpec);
      && HasFinalizer(w, k) && !w.store.objects[k].deleting && PcOf(w, k).Idle? && PcOf(w, j).Idle? && "u3" !in w.used
  {
    var before := FirstIsServed(k, kSpec);
    CompleteEnds(Started(k, kSpec), k, "u1", "100");
    var w1 := Reconciled(Next(EMPTY_BOX, UserCreate(k, kSpec, {FINALIZER})), k, "u1", "100");
    SecondEnds(Next(w1, UserCreate(j, jSpec, {FINALIZER})), k, j);
  }

  /** The first reconcile of the first resource has begun. */
  function Started(k: Key, spec: Spec): World {
    var w := Next(EMPTY_BOX, UserCreate(k, spec, {FINALIZER}));
    w.(pcs := w.pcs[k := AfterGet(w.store, k)])
  }

  lemma SecondEnds(w: World, k: Key, j: Key)
    requires j != k && HasFinalizer(w, k) && !w.store.objects[k].deleting && PcOf(w, k).Idle? && "u3" !in w.used
    ensures
      var w' := Reconciled(w, j, "u2", "200");
      && HasFinalizer(w', k) && !w'.store.objects[k].deleting && PcOf(w', k).Idle?
      && PcOf(w', j).Idle? && "u3" !in w'.used
  {
    var w1 := w.(pcs := w.pcs[j := AfterGet(w.store, j)]);
    CompleteLeavesOthers(w1, j, "u2", "200", k);
    CompleteEnds(w1, j, "u2", "200");
  }

  // ---- A rule of the administrator ----

  /**
   The administrator has a rule, and then `j` is created and reconciled. The rule is overwritten and recorded as the one
   of `j` if and only if its text contains the phrase of `j`; otherwise it stays as it is and `j` gets its own.
   */
  lemma AdminRuleIsOverwrittenIff(rule: StoredRule, j: Key, spec: Spec) returns (es: seq<Event>)
    requires ValidKey(j) && Unmanaged(rule.description)
    ensures
      var w := Next(Next(EMPTY_BOX, AdminAdd("a0", rule)), UserCreate(j, spec, {FINALIZER}));
      var w' := Reconciled(w, j, "u1", "100");
      && w' == Run(EMPTY_BOX, es) && "a0" in w'.staged && j in w'.store.objects
      && if Matches(rule.description, Phrase(j))
         then w'.store.objects[j].status.uuid == "a0" && Agrees(spec, j, w'.staged["a0"])
         else w'.store.objects[j].status.uuid != "a0" && w'.staged["a0"] == rule
  {
    var before := [AdminAdd("a0", rule), UserCreate(j, spec, {FINALIZER})];
    var w := Next(Next(EMPTY_BOX, before[0]), before[1]);
    RunTwo(EMPTY_BOX, before[0], before[1]);
    var rest := ReconciledIsRun(w, j, "u1", "100");
    RunConcat(EMPTY_BOX, before, rest);
    es := before + rest;
    AdoptedIff(EMPTY_BOX, before, j, "a0", "u1", "100");
  }

  // ---- A failed apply, step by step ----

  lemma FailedApplyLeaves(k: Key, spec: Spec, fate: Fate)
    requires ValidKey(k) && !fate.Done?
    ensures
      var w := Run(EMPTY_BOX, FailedApplyRun(k, spec, fate));
      && w.staged == map["u1" := StoreNew(EncodeFirewallRule(SpecToRule(spec, k)), "100")]
      && w.live == (if fate.FailedAfter? then w.staged else map[]) && w.used == {"u1"} && PcOf(w, k).Idle?
      && k in w.store.objects && w.store.objects[k].finalizers == {FINALIZER} && !w.store.objects[k].deleting
      && w.store.objects[k].spec == spec && w.store.objects[k].status.uuid == ""
  {
    var es := FailedApplyRun(k, spec, fate);
    var w1 := Next(EMPTY_BOX, es[0]);
    var w2 := Next(w1, es[1]);
    var w3 := Next(w2, es[2]);
    var w4 := Next(w3, es[3]);
    assert Hits(w3.staged, k) == {};
    FailedApplyEnds(w4, k, spec, fate);
    RunFirst(EMPTY_BOX, es);
    RunFirst(w1, es[1..]);
    RunFirst(w2, es[2..]);
    RunFirst(w3, es[3..]);
    assert es[1..][1..] == es[2..] && es[2..][1..] == es[3..] && es[3..][1..] == es[4..];
  }

  lemma FailedApplyEnds(w: World, k: Key, spec: Spec, fate: Fate)
    requires !fate.Done? && PcOf(w, k).Creating? && PcOf(w, k).obj.spec == spec
    requires k in w.store.objects && w.store.objects[k] == PcOf(w, k).obj
    requires w.staged == map[] && w.live == map[] && w.used == {}
    ensures
      var obj := w.store.objects[k];
      var w' := Run(w, FailedApplyRun(k, spec, fate)[4..]);
      && w'.staged == map["u1" := StoreNew(EncodeFirewallRule(SpecToRule(spec, k)), "100")]
      && w'.live == (if fate.FailedAfter? then w'.staged else map[]) && w'.used == {"u1"} && PcOf(w', k).Idle?
      && k in w'.store.objects && w'.store.objects[k].finalizers == obj.finalizers
      && w'.store.objects[k].deleting == obj.deleting
      && w'.store.objects[k].spec == spec && w'.store.objects[k].status.uuid == obj.status.uuid
  {
    var es := FailedApplyRun(k, spec, fate)[4..];
    var w1 := Next(w, es[0]);
    var w2 := Next(w1, es[1]);
    RuleIsAdded(w, k, spec);
    ApplyFails(w1, k, fate);
    FailureIsSaved(w2, k, Success("u1", "100"));
    RunFirst(w, es);
    RunFirst(w1, es[1..]);
    RunFirst(w2, es[2..]);
    assert es[1..][1..] == es[2..] && es[2..][1..] == [];
  }

  lemma RuleIsAdded(w: World, k: Key, spec: Spec)
    requires PcOf(w, k).Creating? && PcOf(w, k).obj.spec == spec && w.staged == map[] && w.used == {}
    ensures
      var w' := Next(w, Call(k, Success("u1", "100")));
      && PcOf(w', k) == Applying(PcOf(w, k).obj, "u1") && w'.store == w.store && w'.live == w.live && w'.used == {"u1"}
      && w'.staged == map["u1" := StoreNew(EncodeFirewallRule(SpecToRule(spec, k)), "100")]
  {
  }

  lemma ApplyFails(w: World, k: Key, fate: Fate)
    requires PcOf(w, k).Applying? && !fate.Done?
    ensures
      var w' := Next(w, Call(k, Outcome(fate, "", "", map[], "", "timeout")));
      && PcOf(w', k) == SavingFailure(PcOf(w, k).obj, "ApplyFailed", "timeout")
      && w'.store == w.store && w'.staged == w.staged && w'.used == w.used
      && w'.live == if fate.FailedAfter? then w.staged else w.live
  {
  }

  lemma FailureIsSaved(w: World, k: Key, save: Outcome)
    requires PcOf(w, k).SavingFailure? && k in w.store.objects && w.store.objects[k] == PcOf(w, k).obj
    ensures
      var obj := PcOf(w, k).obj;
      var w' := Next(w, Call(k, save));
      && PcOf(w', k).Idle? && w'.staged == w.staged && w'.live == w.live && w'.used == w.used
      && k in w'.store.objects && w'.store.objects[k].finalizers == obj.finalizers
      && w'.store.objects[k].deleting == obj.deleting
      && w'.store.objects[k].spec == obj.spec && w'.store.objects[k].status.uuid == obj.status.uuid
  {
  }

  /** A run begins with its first event. */
  lemma RunFirst(w: World, es: seq<Event>)
    requires es != []
    ensures Run(w, es) == Run(Next(w, es[0]), es[1..])
  {
    assert es == [es[0]] + es[1..];
    assert Run(w, [es[0]]) == Next(Run(w, []), es[0]);
    RunConcat(w, [es[0]], es[1..]);
  }
}
