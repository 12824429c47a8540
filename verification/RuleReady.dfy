/**
 What Ready=True means: the rule agreed with the spec at some instant of the reconcile that says so.
 What it does not mean: that the rule is live.
 */
module RuleReady {
  import opened Kube
  import opened Opnsense
  import opened RuleSpec
  import opened RuleMachine
  import opened RuleSafety
  import opened RuleDrift

  /** The reconcile of `k` that read `obj` is still running. */
  ghost predicate Running(w: World, k: Key, obj: RuleObject) {
    !PcOf(w, k).Idle? && PcOf(w, k).obj == obj
  }

  /** The staged rule `u` carries every managed field that `spec` asks for. */
  ghost predicate InAgreement(w: World, k: Key, spec: Spec, u: Uuid) {
    u in w.staged && Agrees(spec, k, w.staged[u])
  }

  /** After `m` events of the run, and in the reconcile of `k` still running at its end, `u` agreed with the spec. */
  ghost predicate AgreedAt(w0: World, es: seq<Event>, m: nat, k: Key, obj: RuleObject, u: Uuid)
    requires m <= |es|
  {
    && InAgreement(Run(w0, es[..m]), k, obj.spec, u)
    && forall i | m <= i <= |es| :: Running(Run(w0, es[..i]), k, obj)
  }

  ghost predicate Agreed(w0: World, es: seq<Event>, k: Key, obj: RuleObject, u: Uuid) {
    exists m | 0 <= m <= |es| :: AgreedAt(w0, es, m, k, obj, u)
  }

  lemma AgreedStays(w0: World, es: seq<Event>, e: Event, k: Key, obj: RuleObject, u: Uuid)
    requires Agreed(w0, es, k, obj, u)
    requires Running(Run(w0, es + [e]), k, obj)
    ensures Agreed(w0, es + [e], k, obj, u)
  {
    var fs := es + [e];
    var m :| 0 <= m <= |es| && AgreedAt(w0, es, m, k, obj, u);
    assert fs[..m] == es[..m];
    forall i | m <= i <= |fs|
      ensures Running(Run(w0, fs[..i]), k, obj)
    {
      if i <= |es| {
        assert fs[..i] == es[..i];
      } else {
        assert fs[..i] == fs;
      }
    }
    assert AgreedAt(w0, fs, m, k, obj, u);
  }

  lemma AgreedBegins(w0: World, es: seq<Event>, k: Key, obj: RuleObject, u: Uuid)
    requires Running(Run(w0, es), k, obj) && InAgreement(Run(w0, es), k, obj.spec, u)
    ensures Agreed(w0, es, k, obj, u)
  {
    assert es[..|es|] == es;
    assert AgreedAt(w0, es, |es|, k, obj, u);
  }

  lemma RunStep(w0: World, es: seq<Event>, e: Event)
    ensures Run(w0, es + [e]) == Next(Run(w0, es), e)
  {
    assert (es + [e])[..|es + [e]| - 1] == es;
  }

  /** The reconcile has a uuid that it is going to record. */
  ghost predicate HasRule(pc: Pc) {
    pc.Applying? || pc.ReadingBack? || pc.SavingReady?
  }

  /** That rule has agreed with the spec during this reconcile. */
  ghost predicate Witnessed(w0: World, es: seq<Event>, k: Key) {
    var pc := PcOf(Run(w0, es), k);
    HasRule(pc) ==> Agreed(w0, es, k, pc.obj, pc.uuid)
  }

  lemma WitnessedStep(w0: World, es: seq<Event>, e: Event, k: Key)
    requires Witnessed(w0, es, k)
    requires
      var pc, pc' := PcOf(Run(w0, es), k), PcOf(Run(w0, es + [e]), k);
      HasRule(pc') ==>
        || InAgreement(Run(w0, es + [e]), k, pc'.obj.spec, pc'.uuid)
        || (HasRule(pc) && pc'.obj == pc.obj && pc'.uuid == pc.uuid)
    ensures Witnessed(w0, es + [e], k)
  {
    var pc' := PcOf(Run(w0, es + [e]), k);
    if HasRule(pc') {
      if InAgreement(Run(w0, es + [e]), k, pc'.obj.spec, pc'.uuid) {
        AgreedBegins(w0, es + [e], k, pc'.obj, pc'.uuid);
      } else {
        AgreedStays(w0, es, e, k, pc'.obj, pc'.uuid);
      }
    }
  }

  /** A write, and a read that shows no drift, leave the rule in agreement with the spec that the reconcile read. */
  lemma CallBringsAgreement(w: World, k: Key, o: Outcome)
    requires Enabled(w, Call(k, o)) && HasRule(PcAfter(w, k, o)) && !HasRule(PcOf(w, k))
    ensures InAgreement(Perform(w, k, o), k, PcAfter(w, k, o).obj.spec, PcAfter(w, k, o).uuid)
  {
    var pc := PcOf(w, k);
    if pc.Creating? {
      CreateConverges(pc.obj.spec, k, o.sequence);
    } else if pc.Updating? {
      UpdateConverges(pc.obj.spec, k, w.staged[pc.uuid]);
    } else {
      DriftTestIsExact(pc.obj.spec, k, w.staged[PcAfter(w, k, o).uuid]);
    }
  }

  lemma NextBringsAgreement(w: World, e: Event, k: Key)
    requires HasRule(PcOf(Next(w, e), k))
    ensures var pc, pc' := PcOf(w, k), PcOf(Next(w, e), k);
            || InAgreement(Next(w, e), k, pc'.obj.spec, pc'.uuid)
            || (HasRule(pc) && pc'.obj == pc.obj && pc'.uuid == pc.uuid)
  {
    if Enabled(w, e) && e.Call? && e.key == k && !HasRule(PcOf(w, k)) {
      CallBringsAgreement(w, k, e.outcome);
    }
  }

  lemma {:induction false} RunWitnessed(w0: World, es: seq<Event>, k: Key)
    ensures w0.pcs == map[] ==> Witnessed(w0, es, k)
  {
    if es != [] && w0.pcs == map[] {
      var init, e := es[..|es| - 1], es[|es| - 1];
      assert es == init + [e];
      RunStep(w0, init, e);
      RunWitnessed(w0, init, k);
      if HasRule(PcOf(Run(w0, es), k)) {
        NextBringsAgreement(Run(w0, init), e, k);
      }
      WitnessedStep(w0, init, e, k);
    }
  }

  predicate ReadyTrue(w: World, k: Key) {
    && k in w.store.objects && w.store.objects[k].status.ready.Some? && w.store.objects[k].status.ready.value.ok
  }

  /** The event is a status save that reports success and takes effect. */
  predicate SavesReady(w: World, e: Event, k: Key) {
    && Enabled(w, e) && e.Call? && e.key == k && e.outcome.Performed()
    && PcOf(w, k).SavingReady? && Current(w.store, k, PcOf(w, k).obj)
  }

  /**
   Ready is sound: whenever a save of Ready=True takes effect, even one that finds the status as it wants
   it, the status carries the generation of the stored spec, and during the very reconcile that saves it
   the recorded rule was staged and agreed with that spec on every managed field, whatever other
   resources, users and administrators did meanwhile.
   */
  lemma ReadyIsSound(w0: World, es: seq<Event>, e: Event, k: Key)
    requires Initial(w0) && SavesReady(Run(w0, es), e, k)
    ensures
      var w' := Next(Run(w0, es), e);
      && ReadyTrue(w', k)
      && var now := w'.store.objects[k];
      && now.status.observedGeneration == now.generation
      && exists m | 0 <= m <= |es| ::
           && var v := Run(w0, es[..m]);
           && now.status.uuid in v.staged && Agrees(now.spec, k, v.staged[now.status.uuid])
           && forall i | m <= i <= |es| :: !PcOf(Run(w0, es[..i]), k).Idle?
  {
    var w := Run(w0, es);
    ReachableInv(w0, es);
    RunWitnessed(w0, es, k);
    SaveStores(w, e, k);
    var obj, u := PcOf(w, k).obj, PcOf(w, k).uuid;
    var m :| 0 <= m <= |es| && AgreedAt(w0, es, m, k, obj, u);
    assert InAgreement(Run(w0, es[..m]), k, obj.spec, u);
    assert forall i | m <= i <= |es| :: Running(Run(w0, es[..i]), k, obj);
  }

  lemma SaveStores(w: World, e: Event, k: Key)
    requires Inv(w) && SavesReady(w, e, k)
    ensures
      var now, pc := Next(w, e).store.objects[k], PcOf(w, k);
      && ReadyTrue(Next(w, e), k) && now.spec == pc.obj.spec && now.status.uuid == pc.uuid
      && now.status.observedGeneration == now.generation
  {
    assert KeyGood(w, k);
  }

  /** Nothing else ever makes a resource ready: Ready=True comes with a new status only by such a save. */
  lemma OnlySavesMakeReady(w0: World, es: seq<Event>, e: Event, k: Key)
    requires Initial(w0)
    requires var w := Run(w0, es); var w' := Next(w, e);
             ReadyTrue(w', k) && !(k in w.store.objects && w.store.objects[k].status == w'.store.objects[k].status)
    ensures SavesReady(Run(w0, es), e, k)
  {
    var w := Run(w0, es);
    ReachableInv(w0, es);
    if Enabled(w, e) && e.Call? {
      OwnSaveStoresReady(w, e.key, e.outcome, k);
    }
  }

  lemma OwnSaveStoresReady(w: World, j: Key, o: Outcome, k: Key)
    requires Inv(w) && Enabled(w, Call(j, o)) && ReadyTrue(Perform(w, j, o), k)
    requires !(k in w.store.objects && w.store.objects[k].status == Perform(w, j, o).store.objects[k].status)
    ensures j == k && SavesReady(w, Call(j, o), k)
  {
    assert KeyGood(w, j);
  }
}
