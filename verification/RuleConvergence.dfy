/**
 Recovery under interleaving: while all other resources' reconciles, users and administrators go on,
 failing and crashing as they like, two fault-free reconciles of a resource settle it for good.
 */
module RuleConvergence {
  import opened Kube
  import opened Opnsense
  import opened RuleMachine
  import opened RuleSafety
  import opened RuleDrift
  import opened RuleOwnership
  import opened RuleRecovery

  /** An event of somebody else that leaves the resource `k` and the rules it claims to `k`. */
  ghost predicate Foreign(w: World, e: Event, k: Key) {
    match e
    case AdminAdd(_, _) => true
    case AdminSet(u, _) => !Claims(w, k, u)
    case AdminDelete(u) => !Claims(w, k, u)
    case AdminApply => true
    case _ => e.key != k
  }

  ghost predicate Friendly(keys: set<Key>, w: World, e: Event, k: Key) {
    Separated(keys, w, e) && (FaultFree(e, k) || Foreign(w, e, k))
  }

  ghost predicate FriendlyRun(keys: set<Key>, w: World, es: seq<Event>, k: Key) {
    forall i | 0 <= i < |es| :: Friendly(keys, Run(w, es[..i]), es[i], k)
  }

  /** How many reconciles of `k` the run starts. */
  function Starts(w: World, es: seq<Event>, k: Key): nat {
    if es == [] then 0 else
    var init, e := es[..|es| - 1], es[|es| - 1];
    Starts(w, init, k) + (if e.Begin? && e.key == k && Enabled(Run(w, init), e) then 1 else 0)
  }

  // ---- What others leave alone ----

  ghost predicate SameRules(w: World, w': World, k: Key) {
    && (forall u | Claims(w, k, u) ::
          (u in w.staged <==> u in w'.staged) && (u in w.staged ==> w.staged[u] == w'.staged[u]))
    && (forall u :: Marked(w, u, k) <==> Marked(w', u, k))
    && w.used <= w'.used
  }

  ghost predicate SameResource(w: World, w': World, k: Key) {
    && (k in w.store.objects <==> k in w'.store.objects)
    && (k in w.store.objects ==> w.store.objects[k] == w'.store.objects[k])
    && PcOf(w, k) == PcOf(w', k)
  }

  lemma ForeignCallLeavesRules(w: World, keys: set<Key>, j: Key, o: Outcome, k: Key)
    requires Own(w, keys) && Enabled(w, Call(j, o)) && k in keys && j != k
    ensures SameRules(w, Perform(w, j, o), k)
  {
    var w' := Perform(w, j, o);
    forall u | Claims(w, k, u)
      ensures (u in w.staged <==> u in w'.staged) && (u in w.staged ==> w.staged[u] == w'.staged[u])
    {
      ClaimsAreUsed(w, k, u);
      assert KeyGood(w, j);
      assert !Claims(w, j, u);
    }
    CallLeavesOthers(w, j, o, k);
    assert forall u | Marked(w, u, k) :: Claims(w, k, u);
  }

  lemma ForeignLeavesRules(w: World, keys: set<Key>, e: Event, k: Key)
    requires Own(w, keys) && Enabled(w, e) && Foreign(w, e, k) && k in keys
    ensures SameRules(w, Act(w, e), k)
  {
    if e.Call? {
      ForeignCallLeavesRules(w, keys, e.key, e.outcome, k);
    } else if ByAdmin(e) {
      forall u | Marked(Act(w, e), u, k)
        ensures Marked(w, u, k)
      {
        BearersAreManaged(Act(w, e).staged[u].description, k);
      }
      forall u | Claims(w, k, u)
        ensures u in w.used
      {
        ClaimsAreUsed(w, k, u);
      }
      assert forall u | Marked(w, u, k) :: Claims(w, k, u);
    } else {
      assert forall u :: Marked(w, u, k) <==> Marked(Act(w, e), u, k);
    }
  }

  lemma ForeignLeavesResource(w: World, e: Event, k: Key)
    requires Inv(w) && Enabled(w, e) && Foreign(w, e, k) && ValidKey(k)
    ensures SameResource(w, Act(w, e), k)
  {
    if e.Call? {
      CallLeavesOthers(w, e.key, e.outcome, k);
    }
  }

  // ---- The way of one undisturbed reconcile ----

  /** The rule the reconcile has in its hands is staged, and after the write it agrees with the spec. */
  ghost predicate OnCourse(w: World, k: Key, pc: Pc) {
    match pc
    case Connecting(_) => true
    case Reading(obj) => obj.status.uuid != ""
    case Searching(_) => true
    case ReadingHit(_, u) => u in w.staged
    case Creating(_) => true
    case Updating(_, u) => u in w.staged
    case Applying(obj, u) => u in w.staged && Agrees(obj.spec, k, w.staged[u])
    case ReadingBack(obj, u) => u in w.staged && Agrees(obj.spec, k, w.staged[u])
    case SavingReady(obj, u, s) => u in w.staged && Agrees(obj.spec, k, w.staged[u]) && s == w.staged[u].sequence
    case _ => false
  }

  /** Where `k` is after `n` starts. */
  ghost predicate Recovering(w: World, k: Key, n: nat) {
    && k in w.store.objects && !w.store.objects[k].deleting
    && var pc := PcOf(w, k);
    if pc.Idle? then (n >= 1 ==> HasFinalizer(w, k)) && (n >= 2 ==> Settled(w, k))
    else if pc.AddingFinalizer? then n == 1 && w.store.objects[k] == pc.obj
    else n >= 1 && UpToDate(w, k, pc.obj) && OnCourse(w, k, pc)
  }

  lemma CourseCall(w: World, keys: set<Key>, k: Key, o: Outcome)
    requires Own(w, keys) && Enabled(w, Call(k, o)) && k in keys && o.fate.Done?
    requires !PcOf(w, k).AddingFinalizer? && UpToDate(w, k, PcOf(w, k).obj) && OnCourse(w, k, PcOf(w, k))
    ensures
      var w' := Perform(w, k, o);
      var pc' := PcAfter(w, k, o);
      if pc'.Idle? then Settled(w', k) else UpToDate(w', k, pc'.obj) && OnCourse(w', k, pc')
  {
    var pc := PcOf(w, k);
    assert KeyGood(w, k);
    if pc.Searching? {
      CourseSearch(w, keys, k, o);
    } else if pc.Creating? {
      CreateConverges(pc.obj.spec, k, o.sequence);
    } else if pc.Updating? {
      UpdateConverges(pc.obj.spec, k, w.staged[pc.uuid]);
    } else if pc.Reading? && pc.obj.status.uuid in w.staged {
      DriftTestIsExact(pc.obj.spec, k, w.staged[pc.obj.status.uuid]);
    } else if pc.ReadingHit? {
      DriftTestIsExact(pc.obj.spec, k, w.staged[pc.uuid]);
    }
  }

  /** Where names are separated the search is never ambiguous. */
  lemma CourseSearch(w: World, keys: set<Key>, k: Key, o: Outcome)
    requires Own(w, keys) && k in keys && PcOf(w, k).Searching? && o.fate.Done?
    ensures var pc' := PcAfter(w, k, o);
            (pc'.Creating? || (pc'.ReadingHit? && pc'.uuid in w.staged)) && pc'.obj == PcOf(w, k).obj
  {
    NeverAmbiguous(w, keys, k);
    var hits := Hits(w.staged, k);
    if |hits| == 1 {
      assert TheOnly(hits) in hits;
    }
  }

  lemma NeverAmbiguous(w: World, keys: set<Key>, k: Key)
    requires Own(w, keys) && k in keys
    ensures |Hits(w.staged, k)| <= 1
  {
    assert KeyGood(w, k);
    var hits := Hits(w.staged, k);
    if hits != {} {
      var u :| u in hits;
      assert forall v | v in hits :: Marked(w, v, k);
      assert hits == {u};
    }
  }

  lemma NextRecovers(w: World, keys: set<Key>, e: Event, k: Key, n: nat)
    requires Own(w, keys) && k in keys && Friendly(keys, w, e, k) && Recovering(w, k, n)
    ensures Recovering(Next(w, e), k, n + (if e.Begin? && e.key == k && Enabled(w, e) then 1 else 0))
  {
    if Enabled(w, e) {
      if Foreign(w, e, k) {
        ForeignRecovers(w, keys, e, k, n);
      } else {
        OwnEventRecovers(w, keys, e, k, n);
      }
    }
  }

  lemma OwnEventRecovers(w: World, keys: set<Key>, e: Event, k: Key, n: nat)
    requires Own(w, keys) && k in keys && Enabled(w, e) && FaultFree(e, k) && Recovering(w, k, n)
    ensures Recovering(Act(w, e), k, n + (if e.Begin? then 1 else 0))
  {
    assert KeyGood(w, k);
    if e.Call? && !PcOf(w, k).AddingFinalizer? {
      CourseCall(w, keys, k, e.outcome);
    }
  }

  lemma ForeignRecovers(w: World, keys: set<Key>, e: Event, k: Key, n: nat)
    requires Own(w, keys) && k in keys && Enabled(w, e) && Foreign(w, e, k) && Recovering(w, k, n)
    ensures Recovering(Act(w, e), k, n)
  {
    ForeignLeavesRules(w, keys, e, k);
    ForeignLeavesResource(w, e, k);
    LeftAloneRecovers(w, Act(w, e), k, n);
  }

  lemma LeftAloneRecovers(w: World, w': World, k: Key, n: nat)
    requires Inv(w) && ValidKey(k) && SameRules(w, w', k) && SameResource(w, w', k) && Recovering(w, k, n)
    ensures Recovering(w', k, n)
  {
    var pc := PcOf(w, k);
    var obj := w.store.objects[k];
    assert KeyGood(w, k);
    assert "" !in w.staged;
    assert forall u | WorksOn(pc, u) && u in w.staged :: Claims(w, k, u);
    assert obj.status.uuid != "" ==> Claims(w, k, obj.status.uuid);
  }

  lemma {:induction false} RunRecovers(w: World, keys: set<Key>, es: seq<Event>, k: Key)
    requires Own(w, keys) && k in keys && FriendlyRun(keys, w, es, k) && Recovering(w, k, 0)
    ensures Own(Run(w, es), keys) && Recovering(Run(w, es), k, Starts(w, es, k))
  {
    if es != [] {
      var init, e := es[..|es| - 1], es[|es| - 1];
      assert forall i | 0 <= i < |init| :: init[..i] == es[..i];
      assert es[..|init|] == init;
      RunRecovers(w, keys, init, k);
      NextKeepsOwn(Run(w, init), keys, e);
      NextRecovers(Run(w, init), keys, e, k, Starts(w, init, k));
    }
  }

  /**
   Recovery: from every state that a run with separated names can reach, whatever faults it met, two
   fault-free reconciles of an undeleted resource settle it, however the others interleave.
   */
  lemma TwoReconcilesSettle(w0: World, keys: set<Key>, es: seq<Event>, fs: seq<Event>, k: Key)
    requires Initial(w0) && SeparatedRun(keys, w0, es) && forall j | j in keys :: ValidKey(j)
    requires var w := Run(w0, es);
             && k in w.store.objects && !w.store.objects[k].deleting && PcOf(w, k).Idle?
             && FriendlyRun(keys, w, fs, k) && Starts(w, fs, k) >= 2
    requires PcOf(Run(w0, es + fs), k).Idle?
    ensures Settled(Run(w0, es + fs), k)
  {
    ReachableOwn(w0, keys, es);
    RunConcat(w0, es, fs);
    RunRecovers(Run(w0, es), keys, fs, k);
  }

  // ---- Rest ----

  /** Settled, with no reconcile running or only one that has not got past reading. */
  ghost predicate Rested(w: World, k: Key) {
    && Settled(w, k)
    && var pc := PcOf(w, k);
    || pc.Idle?
    || ((pc.Connecting? || pc.Reading?) && pc.obj == w.store.objects[k] && pc.obj.status.uuid != "")
  }

  /** The events of `k` write nothing. */
  predicate WritesNothing(w: World, e: Event, k: Key) {
    var w' := Next(w, e);
    FaultFree(e, k) ==> w'.staged == w.staged && w'.live == w.live && w'.store == w.store && w'.used == w.used
  }

  lemma OwnEventRests(w: World, keys: set<Key>, e: Event, k: Key)
    requires Own(w, keys) && k in keys && FaultFree(e, k) && Rested(w, k)
    ensures Rested(Next(w, e), k) && WritesNothing(w, e, k)
  {
    assert KeyGood(w, k);
    var obj := w.store.objects[k];
    DriftTestIsExact(obj.spec, k, w.staged[obj.status.uuid]);
  }

  lemma ForeignRests(w: World, keys: set<Key>, e: Event, k: Key)
    requires Own(w, keys) && k in keys && Foreign(w, e, k) && Rested(w, k)
    ensures Rested(Next(w, e), k)
  {
    if Enabled(w, e) {
      ForeignLeavesRules(w, keys, e, k);
      ForeignLeavesResource(w, e, k);
      assert KeyGood(w, k);
      assert Claims(w, k, w.store.objects[k].status.uuid);
    }
  }

  lemma NextRests(w: World, keys: set<Key>, e: Event, k: Key)
    requires Own(w, keys) && k in keys && Rested(w, k) && Friendly(keys, w, e, k)
    ensures Own(Next(w, e), keys) && Rested(Next(w, e), k)
  {
    NextKeepsOwn(w, keys, e);
    if FaultFree(e, k) {
      OwnEventRests(w, keys, e, k);
    } else {
      ForeignRests(w, keys, e, k);
    }
  }

  lemma {:induction false} RunRests(w: World, keys: set<Key>, fs: seq<Event>, k: Key)
    requires Own(w, keys) && k in keys && Rested(w, k) && FriendlyRun(keys, w, fs, k)
    ensures Own(Run(w, fs), keys) && Rested(Run(w, fs), k)
  {
    if fs != [] {
      var init := fs[..|fs| - 1];
      assert forall i | 0 <= i < |init| :: init[..i] == fs[..i];
      RunRests(w, keys, init, k);
      NextRests(Run(w, init), keys, fs[|fs| - 1], k);
    }
  }

  /** Rest is lasting: a settled resource stays settled and its reconciles write nothing, however the others go on. */
  lemma SettledForGood(w: World, keys: set<Key>, fs: seq<Event>, e: Event, k: Key)
    requires Own(w, keys) && k in keys && Rested(w, k)
    requires FriendlyRun(keys, w, fs, k) && Friendly(keys, Run(w, fs), e, k)
    ensures Rested(Run(w, fs), k) && Rested(Next(Run(w, fs), e), k) && WritesNothing(Run(w, fs), e, k)
  {
    RunRests(w, keys, fs, k);
    NextRests(Run(w, fs), keys, e, k);
    if FaultFree(e, k) {
      OwnEventRests(Run(w, fs), keys, e, k);
    }
  }
}
