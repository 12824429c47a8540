/**
 When one resource's reconcile lays hands on a rule that is not its own, another resource's or an
 administrator's, and what becomes of two resources that hold the same rule.
 */
module RuleContention {
  import opened Text
  import opened Kube
  import opened Opnsense
  import opened RuleSpec
  import opened RuleNames
  import opened RuleDrift
  import opened RuleMachine
  import opened RuleSafety
  import opened RuleRecovery

  /** The resource is free for one undisturbed reconcile, and `uuid` is fresh. */
  ghost predicate Free(w: World, k: Key, uuid: Uuid) {
    && HasFinalizer(w, k) && !w.store.objects[k].deleting && PcOf(w, k).Idle?
    && uuid != "" && uuid !in w.used
  }

  // ---- Adoption ----

  /** `j` is about to adopt the staged rule `u`, told by its status and by the texts on the box. */
  predicate Adopts(w: World, j: Key, u: Uuid)
    requires j in w.store.objects && u in w.staged
  {
    var recorded := w.store.objects[j].status.uuid;
    if recorded in w.staged then recorded == u
    else
      && Matches(w.staged[u].description, Phrase(j))
      && forall v | v in w.staged && v != u :: !Matches(w.staged[v].description, Phrase(j))
  }

  lemma AdoptsIff(w: World, j: Key, u: Uuid)
    requires j in w.store.objects && u in w.staged
    ensures Adopts(w, j, u) <==> !Ambiguous(w, j) && Found(w, j) == Some(u)
  {
    var hits := Hits(w.staged, j);
    if w.store.objects[j].status.uuid !in w.staged {
      if Adopts(w, j, u) {
        assert hits == {u};
      }
      if |hits| == 1 && TheOnly(hits) == u {
        assert hits == {u};
        assert forall v | v in w.staged && v != u :: v !in hits;
      }
    }
  }

  /**
   The exact condition for every staged rule, whoever it belongs to: an undisturbed reconcile of `j` records it and
   overwrites it with what `j` asks for, or it leaves it untouched. It does the first exactly if `j` has recorded
   the rule; or what `j` has recorded is not staged, and this is the only staged text with the phrase of `j`.
   */
  lemma AdoptedIff(w0: World, es: seq<Event>, j: Key, u: Uuid, uuid: Uuid, sequence: string)
    requires Initial(w0) && Free(Run(w0, es), j, uuid) && u in Run(w0, es).staged
    ensures
      var w, w' := Run(w0, es), Reconciled(Run(w0, es), j, uuid, sequence);
      && u in w'.staged && j in w'.store.objects
      && (w'.store.objects[j].status.uuid == u <==> Adopts(w, j, u))
      && (if Adopts(w, j, u)
          then Settled(w', j) && Agrees(w.store.objects[j].spec, j, w'.staged[u]) && Bears(w'.staged[u].description, j)
          else w'.staged[u] == w.staged[u])
  {
    ReachableInv(w0, es);
    StepAdopts(Run(w0, es), j, u, uuid, sequence);
  }

  lemma StepAdopts(w: World, j: Key, u: Uuid, uuid: Uuid, sequence: string)
    requires Inv(w) && Free(w, j, uuid) && u in w.staged
    ensures
      var w' := Reconciled(w, j, uuid, sequence);
      && u in w'.staged && j in w'.store.objects
      && (w'.store.objects[j].status.uuid == u <==> Adopts(w, j, u))
      && (if Adopts(w, j, u)
          then Settled(w', j) && Agrees(w.store.objects[j].spec, j, w'.staged[u]) && Bears(w'.staged[u].description, j)
          else w'.staged[u] == w.staged[u])
  {
    var w' := Reconciled(w, j, uuid, sequence);
    AdoptsIff(w, j, u);
    ReconciledIsBigStep(w, j, uuid, sequence);
    StepAchieves(w, w', j, uuid, sequence);
    ManagedDescriptionBears(w.store.objects[j].spec.description, j);
  }

  /** A text that bears the tag of `j` bears nobody else's. */
  lemma OnlyOneTag(w: World, u: Uuid, j: Key, k: Key)
    requires ValidKey(j) && ValidKey(k) && j != k && u in w.staged && Bears(w.staged[u].description, j)
    ensures !Bears(w.staged[u].description, k)
  {
    if Bears(w.staged[u].description, k) {
      TagUnique(w.staged[u].description, j, k);
    }
  }

  /**
   A sole hit need not be the resource's own rule. If it bears the tag of another resource, as when the one
   name is part of the other, an undisturbed reconcile takes it over: afterwards it bears only the new tag.
   */
  lemma SoleHitIsTakenOver(w0: World, es: seq<Event>, j: Key, k: Key, u: Uuid, uuid: Uuid, sequence: string)
    requires Initial(w0) && ValidKey(j) && ValidKey(k) && j != k
    requires Free(Run(w0, es), j, uuid)
    requires var w := Run(w0, es);
             && w.store.objects[j].status.uuid !in w.staged
             && Hits(w.staged, j) == {u} && Bears(w.staged[u].description, k)
    ensures
      var w' := Reconciled(Run(w0, es), j, uuid, sequence);
      && u in w'.staged && Settled(w', j) && w'.store.objects[j].status.uuid == u
      && Bears(w'.staged[u].description, j) && !Bears(w'.staged[u].description, k)
  {
    var w := Run(w0, es);
    assert u in Hits(w.staged, j);
    assert forall v | v in w.staged && v != u :: v !in Hits(w.staged, j);
    AdoptedIff(w0, es, j, u, uuid, sequence);
    OnlyOneTag(Reconciled(w, j, uuid, sequence), u, j, k);
  }

  /** `j` is about to take the rule `u` of `k` for its own, told by its status and by the names and texts on the box. */
  predicate TakeoverDue(w: World, j: Key, k: Key, u: Uuid)
    requires j in w.store.objects && u in w.staged && Bears(w.staged[u].description, k)
  {
    var recorded := w.store.objects[j].status.uuid;
    if recorded in w.staged then recorded == u
    else
      && (Matches(UserText(w.staged[u].description, k), Phrase(j)) || Nested(j, k))
      && forall v | v in w.staged && v != u :: !Matches(w.staged[v].description, Phrase(j))
  }

  /**
   The exact condition for a rule of another resource `k`, in terms of names: `j` has recorded it already; or what
   `j` has recorded is not staged, the user's text or the name of that rule contains the phrase of `j`, and no
   other staged text does.
   */
  lemma TakenOverIff(w0: World, es: seq<Event>, j: Key, k: Key, u: Uuid, uuid: Uuid, sequence: string)
    requires Initial(w0) && ValidKey(j) && ValidKey(k) && j != k && Free(Run(w0, es), j, uuid)
    requires var w := Run(w0, es); u in w.staged && Bears(w.staged[u].description, k)
    ensures
      var w, w' := Run(w0, es), Reconciled(Run(w0, es), j, uuid, sequence);
      && u in w'.staged
      && (!Bears(w'.staged[u].description, k) <==> TakeoverDue(w, j, k, u))
      && (Bears(w'.staged[u].description, j) <==> TakeoverDue(w, j, k, u))
  {
    var w, w' := Run(w0, es), Reconciled(Run(w0, es), j, uuid, sequence);
    AdoptedIff(w0, es, j, u, uuid, sequence);
    BearerIsHitIff(w.staged[u].description, k, j);
    if TakeoverDue(w, j, k, u) {
      OnlyOneTag(w', u, j, k);
    } else {
      OnlyOneTag(w, u, k, j);
    }
  }

  // ---- Two resources with one rule ----

  /** `k` is at rest and has recorded the staged rule `u`. */
  ghost predicate Holder(w: World, k: Key, u: Uuid) {
    && u in w.staged && HasFinalizer(w, k) && !w.store.objects[k].deleting && PcOf(w, k).Idle?
    && w.store.objects[k].status.uuid == u
  }

  ghost predicate Contested(w: World, j: Key, k: Key, u: Uuid) {
    j != k && Holder(w, j, u) && Holder(w, k, u)
  }

  /** `last` has just had its way: the rule bears its tag, it is settled, and `other` is not. */
  ghost predicate Won(w: World, last: Key, other: Key, u: Uuid) {
    u in w.staged && Bears(w.staged[u].description, last) && Settled(w, last) && !Settled(w, other)
  }

  lemma FightStep(
      w0: World, es: seq<Event>, last: Key, other: Key, u: Uuid, uuid: Uuid, sequence: string)
      returns (more: seq<Event>)
    requires Initial(w0) && Contested(Run(w0, es), last, other, u) && uuid != "" && uuid !in Run(w0, es).used
    ensures
      var w' := Reconciled(Run(w0, es), last, uuid, sequence);
      w' == Run(w0, more) && Contested(w', last, other, u) && uuid !in w'.used && Won(w', last, other, u)
  {
    var w := Run(w0, es);
    var w' := Reconciled(w, last, uuid, sequence);
    ReachableInv(w0, es);
    var rest := ReconciledIsRun(w, last, uuid, sequence);
    more := es + rest;
    RunConcat(w0, es, rest);
    StepAdopts(w, last, u, uuid, sequence);
    ReconciledIsBigStep(w, last, uuid, sequence);
    CompleteLeavesOthers(w.(pcs := w.pcs[last := AfterGet(w.store, last)]), last, uuid, sequence, other);
    OnlyOneTag(w', u, last, other);
    ManagedDescriptionBears(w'.store.objects[other].spec.description, other);
  }

  /** Whose turn it is: `j` begins. */
  function Turn(j: Key, k: Key, i: nat): Key {
    if i % 2 == 1 then j else k
  }

  /** The `i`-th world follows from the one before by an undisturbed reconcile of whose turn it is. */
  ghost predicate TurnTaken(ws: seq<World>, j: Key, k: Key, uuid: Uuid, sequence: string, i: nat)
    requires 0 < i < |ws|
  {
    ws[i] == Reconciled(ws[i - 1], Turn(j, k, i), uuid, sequence)
  }

  /** From the first of these worlds on, `j` and `k` are reconciled in turns. */
  ghost predicate InTurns(ws: seq<World>, j: Key, k: Key, uuid: Uuid, sequence: string) {
    ws != [] && forall i | 0 < i < |ws| :: TurnTaken(ws, j, k, uuid, sequence, i)
  }

  lemma {:induction false} FightGoesOn(
      w0: World, es: seq<Event>, ws: seq<World>, j: Key, k: Key, u: Uuid, uuid: Uuid, sequence: string, i: nat)
      returns (more: seq<Event>)
    requires Initial(w0) && InTurns(ws, j, k, uuid, sequence) && ws[0] == Run(w0, es) && i < |ws|
    requires Contested(ws[0], j, k, u) && uuid != "" && uuid !in ws[0].used
    ensures ws[i] == Run(w0, more) && Contested(ws[i], j, k, u) && uuid !in ws[i].used
    ensures i > 0 ==> Won(ws[i], Turn(j, k, i), Turn(j, k, i + 1), u)
  {
    if i == 0 {
      more := es;
    } else {
      var before := FightGoesOn(w0, es, ws, j, k, u, uuid, sequence, i - 1);
      assert TurnTaken(ws, j, k, uuid, sequence, i);
      more := FightStep(w0, before, Turn(j, k, i), Turn(j, k, i + 1), u, uuid, sequence);
    }
  }

  /**
   Two resources that have recorded the same staged rule undo each other forever: after every reconcile the one whose
   turn it was is settled and the other is not, both keep the rule, and from the second on each rewrites it.
   */
  lemma FightForever(
      w0: World, es: seq<Event>, ws: seq<World>, j: Key, k: Key, u: Uuid, uuid: Uuid, sequence: string, i: nat)
    requires Initial(w0) && InTurns(ws, j, k, uuid, sequence) && ws[0] == Run(w0, es) && 0 < i < |ws|
    requires Contested(ws[0], j, k, u) && uuid != "" && uuid !in ws[0].used
    ensures Contested(ws[i], j, k, u) && Won(ws[i], Turn(j, k, i), Turn(j, k, i + 1), u)
    ensures i > 1 ==> u in ws[i - 1].staged && ws[i].staged[u] != ws[i - 1].staged[u]
  {
    var now := FightGoesOn(w0, es, ws, j, k, u, uuid, sequence, i);
    if i > 1 {
      var before := FightGoesOn(w0, es, ws, j, k, u, uuid, sequence, i - 1);
      var last, other := Turn(j, k, i), Turn(j, k, i + 1);
      assert Turn(j, k, i - 1) == other;
      ReachableInv(w0, now);
      OnlyOneTag(ws[i], u, last, other);
    }
  }
}
