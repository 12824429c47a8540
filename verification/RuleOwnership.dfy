/**
 Ownership: when no text on the box mentions another resource's name, no two resources ever share a rule.
 */
module RuleOwnership {
  import opened Text
  import opened Kube
  import opened Opnsense
  import opened RuleSpec
  import opened RuleNames
  import opened RuleMachine
  import opened RuleSafety

  // ---- The naming condition ----

  /** No resource name in `keys` occurs in `description`, in any letter case. */
  predicate Neutral(keys: set<Key>, description: string) {
    forall k | k in keys :: !Matches(description, Phrase(k))
  }

  /** The managed description of `k` mentions no other resource. */
  predicate Distinct(keys: set<Key>, k: Key, spec: Spec) {
    forall j | j in keys && j != k :: !Matches(ManagedDescription(spec.description, k), Phrase(j))
  }

  /** The exact condition on a resource's name and on the user's text. */
  lemma DistinctIff(keys: set<Key>, k: Key, spec: Spec)
    requires ValidKey(k) && forall j | j in keys :: ValidKey(j)
    ensures
      Distinct(keys, k, spec) <==>
        forall j | j in keys && j != k :: !Matches(spec.description, Phrase(j)) && !Nested(j, k)
  {
    forall j | j in keys
      ensures Matches(ManagedDescription(spec.description, k), Phrase(j)) <==>
                Matches(spec.description, Phrase(j)) || Nested(j, k)
    {
      ManagedIsHitIff(spec.description, k, j);
    }
  }

  /** Users name their resources, and everybody words descriptions, so that no resource's name shows up elsewhere. */
  predicate Separated(keys: set<Key>, w: World, e: Event) {
    match e
    case UserCreate(k, spec, _) => k in keys && Distinct(keys, k, spec)
    case UserEdit(k, spec) => Distinct(keys, k, spec)
    case AdminAdd(_, r) => Neutral(keys, r.description)
    case AdminSet(u, r) => (u in w.staged && r.description == w.staged[u].description) || Neutral(keys, r.description)
    case _ => true
  }

  predicate SeparatedRun(keys: set<Key>, w: World, es: seq<Event>) {
    && (forall u | u in w.staged :: Neutral(keys, w.staged[u].description))
    && (forall i | 0 <= i < |es| :: Separated(keys, Run(w, es[..i]), es[i]))
  }

  // ---- Who has a stake in a rule ----

  /** The running reconcile is working on rule `u`. */
  predicate WorksOn(pc: Pc, u: Uuid) {
    (pc.ReadingHit? || pc.Updating? || pc.Applying? || pc.ReadingBack? || pc.SavingReady?) && pc.uuid == u
  }

  /** `u` bears the tag of `k`, is recorded in its status, or is in the hands of its reconcile. */
  ghost predicate Claims(w: World, k: Key, u: Uuid) {
    u != "" &&
    (|| Marked(w, u, k)
     || (k in w.store.objects && w.store.objects[k].status.uuid == u)
     || WorksOn(PcOf(w, k), u))
  }

  ghost predicate Exclusive(w: World, keys: set<Key>) {
    forall j, k, u | j in keys && k in keys && j != k :: !(Claims(w, j, u) && Claims(w, k, u))
  }

  ghost predicate HitsAreMarked(w: World, keys: set<Key>) {
    forall k, u | k in keys && u in w.staged && Matches(w.staged[u].description, Phrase(k)) :: Marked(w, u, k)
  }

  ghost predicate SpecsDistinct(w: World, keys: set<Key>) {
    && (forall k | k in w.store.objects :: k in keys && Distinct(keys, k, w.store.objects[k].spec))
    && (forall k | !PcOf(w, k).Idle? :: k in keys && Distinct(keys, k, PcOf(w, k).obj.spec))
  }

  ghost predicate Own(w: World, keys: set<Key>) {
    && Inv(w) && (forall k | k in keys :: ValidKey(k))
    && SpecsDistinct(w, keys) && HitsAreMarked(w, keys) && Exclusive(w, keys)
  }

  // ---- Preservation ----

  lemma ClaimsAreUsed(w: World, k: Key, u: Uuid)
    requires Inv(w) && ValidKey(k) && Claims(w, k, u)
    ensures u in w.used
  {
    assert KeyGood(w, k);
  }

  /** A resource comes to claim a rule only by its own reconcile, and a new claim is on a fresh uuid. */
  lemma ClaimsGrow(w: World, keys: set<Key>, e: Event, k: Key, u: Uuid)
    requires Own(w, keys) && Enabled(w, e) && k in keys
    requires Claims(Act(w, e), k, u) && !Claims(w, k, u)
    ensures e.Call? && e.key == k && u !in w.used
  {
    if e.Call? && e.key == k {
      OwnClaimsGrow(w, keys, k, e.outcome, u);
    } else {
      OthersGrantNoClaim(w, e, k, u);
      assert false;
    }
  }

  lemma OthersGrantNoClaim(w: World, e: Event, k: Key, u: Uuid)
    requires Inv(w) && Enabled(w, e) && ValidKey(k) && !(e.Call? && e.key == k)
    requires Claims(Act(w, e), k, u)
    ensures Claims(w, k, u)
  {
    if e.Call? {
      CallLeavesOthers(w, e.key, e.outcome, k);
    } else if e.AdminAdd? || e.AdminSet? {
      if Marked(Act(w, e), u, k) {
        BearersAreManaged(Act(w, e).staged[u].description, k);
      }
    }
  }

  /** What a reconcile takes into its hands is recorded, found under its own tag, or fresh. */
  lemma HandlesOwnRules(w: World, keys: set<Key>, k: Key, o: Outcome, u: Uuid)
    requires Own(w, keys) && Enabled(w, Call(k, o)) && k in keys
    requires WorksOn(PcAfter(w, k, o), u) && u != ""
    ensures Claims(w, k, u) || (PcOf(w, k).Creating? && u == o.uuid)
  {
    var pc := PcOf(w, k);
    if pc.Searching? {
      SearchHandlesOwnRule(w, keys, k, o, u);
    } else if pc.Reading? {
      ReadingKeepsUuid(w, k, o);
      assert KeyGood(w, k);
    } else {
      OtherStepsKeepUuid(w, k, o, u);
    }
  }

  lemma ReadingKeepsUuid(w: World, k: Key, o: Outcome)
    requires PcOf(w, k).Reading?
    ensures forall u | WorksOn(PcAfter(w, k, o), u) :: u == PcOf(w, k).obj.status.uuid
  {
  }

  lemma OtherStepsKeepUuid(w: World, k: Key, o: Outcome, u: Uuid)
    requires WorksOn(PcAfter(w, k, o), u) && !PcOf(w, k).Searching? && !PcOf(w, k).Reading?
    ensures WorksOn(PcOf(w, k), u) || (PcOf(w, k).Creating? && u == o.uuid)
  {
  }

  lemma SearchHandlesOwnRule(w: World, keys: set<Key>, k: Key, o: Outcome, u: Uuid)
    requires Own(w, keys) && k in keys && PcOf(w, k).Searching?
    requires WorksOn(PcAfter(w, k, o), u)
    ensures Marked(w, u, k)
  {
    var hits := Hits(w.staged, k);
    assert |hits| == 1 && TheOnly(hits) in hits;
  }

  lemma OwnClaimsGrow(w: World, keys: set<Key>, k: Key, o: Outcome, u: Uuid)
    requires Own(w, keys) && Enabled(w, Call(k, o)) && k in keys
    requires Claims(Perform(w, k, o), k, u) && !Claims(w, k, u)
    ensures u !in w.used
  {
    var w' := Perform(w, k, o);
    if WorksOn(PcAfter(w, k, o), u) {
      HandlesOwnRules(w, keys, k, o, u);
    } else if Marked(w', u, k) {
      assert PcOf(w, k).Creating? || WorksOn(PcOf(w, k), u);
    } else {
      RecordsOwnRules(w, k, o);
    }
  }

  lemma RecordsOwnRules(w: World, k: Key, o: Outcome)
    requires !PcOf(w, k).Idle? && k in Perform(w, k, o).store.objects
    ensures k in w.store.objects
    ensures var u := Perform(w, k, o).store.objects[k].status.uuid;
            || u == w.store.objects[k].status.uuid
            || WorksOn(PcOf(w, k), u)
            || (PcOf(w, k).SavingFailure? && u == PcOf(w, k).obj.status.uuid)
  {
  }

  lemma NextKeepsExclusive(w: World, keys: set<Key>, e: Event)
    requires Own(w, keys) && Enabled(w, e)
    ensures Exclusive(Act(w, e), keys)
  {
    var w' := Act(w, e);
    forall j, k, u | j in keys && k in keys && j != k && Claims(w', j, u)
      ensures !Claims(w', k, u)
    {
      if Claims(w', k, u) {
        if Claims(w, j, u) {
          ClaimsAreUsed(w, j, u);
        }
        if Claims(w, k, u) {
          ClaimsAreUsed(w, k, u);
        } else {
          ClaimsGrow(w, keys, e, k, u);
        }
        if !Claims(w, j, u) {
          ClaimsGrow(w, keys, e, j, u);
        }
        assert false;
      }
    }
  }

  lemma CallKeepsHitsMarked(w: World, keys: set<Key>, j: Key, o: Outcome)
    requires Own(w, keys) && Enabled(w, Call(j, o))
    ensures HitsAreMarked(Perform(w, j, o), keys)
  {
    var w' := Perform(w, j, o);
    forall k, u | k in keys && u in w'.staged && Matches(w'.staged[u].description, Phrase(k))
      ensures Marked(w', u, k)
    {
      if u in w.staged && w'.staged[u] == w.staged[u] {
        assert Marked(w, u, k);
      } else {
        WrittenDescription(w, j, o, u);
        assert Distinct(keys, j, PcOf(w, j).obj.spec);
      }
    }
  }

  lemma AdminKeepsHitsMarked(w: World, keys: set<Key>, e: Event)
    requires Own(w, keys) && Enabled(w, e) && Separated(keys, w, e) && ByAdmin(e)
    ensures HitsAreMarked(Act(w, e), keys)
  {
    var w' := Act(w, e);
    forall k, u | k in keys && u in w'.staged && Matches(w'.staged[u].description, Phrase(k))
      ensures Marked(w', u, k)
    {
      assert u in w.staged && w'.staged[u].description == w.staged[u].description;
      assert Marked(w, u, k);
    }
  }

  lemma OthersKeepHitsMarked(w: World, keys: set<Key>, e: Event)
    requires Own(w, keys) && Enabled(w, e) && !ByAdmin(e) && !e.Call?
    ensures HitsAreMarked(Act(w, e), keys)
  {
    assert forall u, k :: Marked(Act(w, e), u, k) == Marked(w, u, k);
  }

  lemma NextKeepsSpecsDistinct(w: World, keys: set<Key>, e: Event)
    requires Own(w, keys) && Enabled(w, e) && Separated(keys, w, e)
    ensures SpecsDistinct(Act(w, e), keys)
  {
    if e.Call? {
      CallKeepsSpecsDistinct(w, keys, e.key, e.outcome);
    } else if ByUser(e) {
      UserKeepsSpecsDistinct(w, keys, e);
    }
  }

  lemma UserKeepsSpecsDistinct(w: World, keys: set<Key>, e: Event)
    requires Own(w, keys) && Enabled(w, e) && Separated(keys, w, e) && ByUser(e)
    ensures SpecsDistinct(Act(w, e), keys)
  {
    assert forall k :: PcOf(Act(w, e), k) == PcOf(w, k);
    forall k | k in Act(w, e).store.objects
      ensures k in keys && Distinct(keys, k, Act(w, e).store.objects[k].spec)
    {
      UserSetsSpec(w, e, k);
    }
  }

  lemma UserSetsSpec(w: World, e: Event, k: Key)
    requires Enabled(w, e) && ByUser(e) && k in Act(w, e).store.objects
    ensures
      var spec := Act(w, e).store.objects[k].spec;
      || (k in w.store.objects && spec == w.store.objects[k].spec)
      || (k == e.key && (e.UserCreate? || e.UserEdit?) && spec == e.spec)
    ensures k in w.store.objects || (e.UserCreate? && k == e.key)
  {
  }

  lemma CallKeepsSpecsDistinct(w: World, keys: set<Key>, j: Key, o: Outcome)
    requires Own(w, keys) && Enabled(w, Call(j, o))
    ensures SpecsDistinct(Perform(w, j, o), keys)
  {
    var w' := Perform(w, j, o);
    forall k | k in w'.store.objects
      ensures k in keys && Distinct(keys, k, w'.store.objects[k].spec)
    {
      SpecSurvivesCall(w, j, o, k);
    }
    PcKeepsCopy(w, j, o);
    assert forall k | k != j :: PcOf(w', k) == PcOf(w, k);
  }

  lemma SpecSurvivesCall(w: World, j: Key, o: Outcome, k: Key)
    requires k in Perform(w, j, o).store.objects
    ensures k in w.store.objects && Perform(w, j, o).store.objects[k].spec == w.store.objects[k].spec
  {
  }

  lemma PcKeepsCopy(w: World, k: Key, o: Outcome)
    requires !PcOf(w, k).Idle?
    ensures PcAfter(w, k, o).Idle? || PcAfter(w, k, o).obj == PcOf(w, k).obj
  {
  }

  lemma NextKeepsOwn(w: World, keys: set<Key>, e: Event)
    requires Own(w, keys) && Separated(keys, w, e)
    ensures Own(Next(w, e), keys)
  {
    NextKeepsInv(w, e);
    if Enabled(w, e) {
      NextKeepsExclusive(w, keys, e);
      if e.Call? {
        CallKeepsHitsMarked(w, keys, e.key, e.outcome);
      } else if ByAdmin(e) {
        AdminKeepsHitsMarked(w, keys, e);
      } else {
        OthersKeepHitsMarked(w, keys, e);
      }
      NextKeepsSpecsDistinct(w, keys, e);
    }
  }

  lemma {:induction false} RunKeepsOwn(w: World, keys: set<Key>, es: seq<Event>)
    requires Own(w, keys) && forall i | 0 <= i < |es| :: Separated(keys, Run(w, es[..i]), es[i])
    ensures Own(Run(w, es), keys)
  {
    if es != [] {
      var init := es[..|es| - 1];
      assert forall i | 0 <= i < |init| :: init[..i] == es[..i];
      RunKeepsOwn(w, keys, init);
      NextKeepsOwn(Run(w, init), keys, es[|es| - 1]);
    }
  }

  lemma ReachableOwn(w0: World, keys: set<Key>, es: seq<Event>)
    requires Initial(w0) && SeparatedRun(keys, w0, es) && forall k | k in keys :: ValidKey(k)
    ensures Own(Run(w0, es), keys)
  {
    InitialInv(w0);
    forall k, u | k in keys && Claims(w0, k, u)
      ensures false
    {
      BearersAreManaged(w0.staged[u].description, k);
    }
    RunKeepsOwn(w0, keys, es);
  }

  // ---- The ownership theorems ----

  /** Two resources never record the same rule. */
  lemma RulesAreNotShared(w0: World, keys: set<Key>, es: seq<Event>, j: Key, k: Key)
    requires Initial(w0) && SeparatedRun(keys, w0, es) && forall k | k in keys :: ValidKey(k)
    requires var objects := Run(w0, es).store.objects; j in objects && k in objects && j != k
    ensures var objects := Run(w0, es).store.objects;
            objects[j].status.uuid != "" ==> objects[j].status.uuid != objects[k].status.uuid
  {
    ReachableOwn(w0, keys, es);
    var w := Run(w0, es);
    var u := w.store.objects[j].status.uuid;
    assert u != "" ==> Claims(w, j, u);
    assert u != "" && w.store.objects[k].status.uuid == u ==> Claims(w, k, u);
  }

  /**
   A reconcile creates, updates and deletes only its own rules: a rule it changes was one it claims, carried no
   other resource's tag and is recorded by no other resource, and what it writes carries its own tag.
   */
  lemma OnlyOwnersWrite(w0: World, keys: set<Key>, es: seq<Event>, j: Key, o: Outcome, u: Uuid)
    requires Initial(w0) && SeparatedRun(keys, w0, es) && forall k | k in keys :: ValidKey(k)
    requires
      var w, w' := Run(w0, es), Next(Run(w0, es), Call(j, o));
      (u in w.staged <==> u in w'.staged) ==> u in w.staged && w'.staged[u] != w.staged[u]
    ensures
      var w, w' := Run(w0, es), Next(Run(w0, es), Call(j, o));
      && (u in w.staged ==> Claims(w, j, u))
      && (u in w'.staged ==> Bears(w'.staged[u].description, j))
      && (forall k | k in keys && k != j ::
            && (u in w.staged ==> !Bears(w.staged[u].description, k))
            && (k in w.store.objects ==> w.store.objects[k].status.uuid != u))
  {
    ReachableOwn(w0, keys, es);
    ChangesAreClaimed(Run(w0, es), keys, j, o, u);
  }

  /** What a reconcile changes is a rule it claims, or one under a fresh uuid. */
  lemma ChangesOwnRule(w: World, j: Key, o: Outcome, u: Uuid)
    requires Inv(w) && Enabled(w, Call(j, o))
    requires
      var staged := StagedAfter(w, j, o);
      (u in w.staged <==> u in staged) ==> u in w.staged && staged[u] != w.staged[u]
    ensures u != "" && (Claims(w, j, u) || u !in w.used)
  {
    assert KeyGood(w, j);
  }

  lemma ChangesAreClaimed(w: World, keys: set<Key>, j: Key, o: Outcome, u: Uuid)
    requires Own(w, keys)
    requires
      var w' := Next(w, Call(j, o));
      (u in w.staged <==> u in w'.staged) ==> u in w.staged && w'.staged[u] != w.staged[u]
    ensures
      var w' := Next(w, Call(j, o));
      && (u in w.staged ==> Claims(w, j, u))
      && (u in w'.staged ==> Bears(w'.staged[u].description, j))
      && (forall k | k in keys && k != j ::
            && (u in w.staged ==> !Bears(w.staged[u].description, k))
            && (k in w.store.objects ==> w.store.objects[k].status.uuid != u))
  {
    ChangesOwnRule(w, j, o, u);
    if u in StagedAfter(w, j, o) {
      WrittenDescription(w, j, o, u);
    }
    forall k | k in keys && k != j
      ensures !Claims(w, k, u)
    {
      if Claims(w, k, u) {
        ClaimsAreUsed(w, k, u);
        assert false;
      }
    }
    assert forall k | u in w.staged && Bears(w.staged[u].description, k) :: Claims(w, k, u);
    assert forall k | k in w.store.objects && w.store.objects[k].status.uuid == u :: Claims(w, k, u);
  }
}
