/**
 What Ready=True means for an alias, in every interleaving: what it promises, and the one thing it does not.
 */
module AliasReady {
  import opened Kube
  import opened Opnsense
  import opened AliasSpec
  import opened AliasMachine
  import opened AliasSafety

  /** The staged alias `u` carries what `spec` asks for. */
  ghost predicate InAgreement(w: World, spec: Spec, u: Uuid) {
    u in w.staged && Carries(spec, w.staged[u])
  }

  /** At some instant of the reconcile of `k` that is running at the end of the run, `u` carried the spec it read. */
  ghost predicate Agreed(w0: World, es: seq<Event>, k: Key, u: Uuid) {
    var pc := PcOf(Run(w0, es), k);
    && !pc.Idle?
    && (|| InAgreement(Run(w0, es), pc.obj.spec, u)
        || (es != [] && var init := es[..|es| - 1];
            Agreed(w0, init, k, u) && PcOf(Run(w0, init), k).obj == pc.obj))
  }

  lemma {:induction false} AgreedAtInstant(w0: World, es: seq<Event>, k: Key, u: Uuid) returns (m: nat)
    requires Agreed(w0, es, k, u)
    ensures m <= |es| && InAgreement(Run(w0, es[..m]), PcOf(Run(w0, es), k).obj.spec, u)
    ensures forall i | m <= i <= |es| :: !PcOf(Run(w0, es[..i]), k).Idle?
  {
    assert es[..|es|] == es;
    if InAgreement(Run(w0, es), PcOf(Run(w0, es), k).obj.spec, u) {
      m := |es|;
    } else {
      var init := es[..|es| - 1];
      m := AgreedAtInstant(w0, init, k, u);
      assert forall i | 0 <= i <= |init| :: init[..i] == es[..i];
    }
  }

  /** The reconcile has an alias that it is going to record. */
  predicate HasAlias(pc: Pc) {
    pc.Reconfiguring? || pc.SavingReady?
  }

  /** A write, and a read that shows no drift, leave the alias carrying the spec that the reconcile read. */
  lemma CallBringsAgreement(w: World, k: Key, o: Outcome)
    requires Enabled(w, Call(k, o)) && HasAlias(PcAfter(w, k, o)) && !HasAlias(PcOf(w, k))
    ensures InAgreement(Perform(w, k, o), PcAfter(w, k, o).obj.spec, PcAfter(w, k, o).uuid)
  {
    var pc := PcOf(w, k);
    var u := PcAfter(w, k, o).uuid;
    if pc.Creating? || !(u in w.staged) {
      WrittenCarries(pc.obj.spec, StoreNewAlias(EncodeAlias(SpecToAlias(pc.obj.spec))));
    } else {
      WrittenCarries(pc.obj.spec, w.staged[u]);
    }
  }

  lemma {:induction false} RunBringsAgreement(w0: World, es: seq<Event>, k: Key)
    requires w0.pcs == map[] && HasAlias(PcOf(Run(w0, es), k))
    ensures Agreed(w0, es, k, PcOf(Run(w0, es), k).uuid)
  {
    var init, e := es[..|es| - 1], es[|es| - 1];
    var w := Run(w0, init);
    if HasAlias(PcOf(w, k)) {
      RunBringsAgreement(w0, init, k);
    } else if e.Call? && e.key == k {
      CallBringsAgreement(w, k, e.outcome);
    }
  }

  predicate ReadyTrue(w: World, k: Key) {
    && k in w.store.objects && w.store.objects[k].status.ready.Some? && w.store.objects[k].status.ready.value.ok
  }

  /** The event is a status save that reports success and takes effect. */
  predicate SavesReady(w: World, e: Event, k: Key) {
    && Enabled(w, e) && e.Call? && e.key == k && e.outcome.Performed()
    && PcOf(w, k).SavingReady? && Current(w.store, k, PcOf(w, k).obj)
  }

  /**
   Ready is sound, but for the description: whenever a save of Ready=True takes effect, the status carries the
   generation of the stored spec, and during the very reconcile that saves it the recorded alias carried that
   spec. At that instant there was no drift at all exactly if the spec has a description or the alias had none.
   */
  lemma ReadyIsSound(w0: World, es: seq<Event>, e: Event, k: Key)
    requires Initial(w0) && SavesReady(Run(w0, es), e, k)
    ensures
      var w' := Next(Run(w0, es), e);
      && ReadyTrue(w', k)
      && var now := w'.store.objects[k];
      && now.status.observedGeneration == now.generation
      && exists m | 0 <= m <= |es| ::
           && var v := Run(w0, es[..m]);
           && InAgreement(v, now.spec, now.status.uuid)
           && (!AliasNeedsUpdate(now.spec, DecodeAlias(v.staged[now.status.uuid])) <==>
                 now.spec.description != "" || v.staged[now.status.uuid].description == "")
           && forall i | m <= i <= |es| :: !PcOf(Run(w0, es[..i]), k).Idle?
  {
    var w := Run(w0, es);
    ReachableInv(w0, es);
    SaveStores(w, e, k);
    RunBringsAgreement(w0, es, k);
    var obj, u := PcOf(w, k).obj, PcOf(w, k).uuid;
    var m := AgreedAtInstant(w0, es, k, u);
    NoDriftIff(obj.spec, Run(w0, es[..m]).staged[u]);
  }

  lemma SaveStores(w: World, e: Event, k: Key)
    requires Inv(w) && SavesReady(w, e, k)
    ensures
      var now, pc := Next(w, e).store.objects[k], PcOf(w, k);
      && ReadyTrue(Next(w, e), k) && now.spec == pc.obj.spec && now.status.uuid == pc.uuid
      && now.status.observedGeneration == now.generation
  {
    assert KeyGood(w, k);
  }

  /** Ready=True comes with a new status only by such a save. */
  lemma OnlySavesMakeReady(w0: World, es: seq<Event>, e: Event, k: Key)
    requires Initial(w0)
    requires var w := Run(w0, es); var w' := Next(w, e);
             ReadyTrue(w', k) && !(k in w.store.objects && w.store.objects[k].status == w'.store.objects[k].status)
    ensures SavesReady(Run(w0, es), e, k)
  {
    var w := Run(w0, es);
    ReachableInv(w0, es);
    if Enabled(w, e) && e.Call? {
      assert KeyGood(w, e.key);
    }
  }

  // ---- What is stored ----

  /** A save of a failure that takes effect stores exactly its reason and message, and keeps the rest of the status. */
  lemma FailureIsStored(w: World, k: Key, o: Outcome)
    requires PcOf(w, k).SavingFailure? && o.Performed() && Current(w.store, k, PcOf(w, k).obj)
    ensures
      var pc, now := PcOf(w, k), Next(w, Call(k, o)).store.objects;
      && k in now
      && now[k].status.ready == Some(Condition(false, pc.reason, pc.message, pc.obj.generation))
      && now[k].status.uuid == pc.obj.status.uuid
      && now[k].status.observedGeneration == pc.obj.status.observedGeneration
  {
  }

  /** A save of success that takes effect stores the alias and the generation, and says so in fixed words. */
  lemma SuccessIsStored(w: World, k: Key, o: Outcome)
    requires PcOf(w, k).SavingReady? && o.Performed() && Current(w.store, k, PcOf(w, k).obj)
    ensures
      var pc, now := PcOf(w, k), Next(w, Call(k, o)).store.objects;
      && k in now
      && now[k].status.uuid == pc.uuid && now[k].status.observedGeneration == pc.obj.generation
      && now[k].status.ready ==
           Some(Condition(true, "AliasReady", "Alias is in sync with OPNsense", pc.obj.generation))
  {
  }

  /** A write of the finalizer that takes effect adds exactly it, and changes nothing else of the resource. */
  lemma FinalizerIsAdded(w: World, k: Key, o: Outcome)
    requires Inv(w) && PcOf(w, k).AddingFinalizer? && o.Performed() && Current(w.store, k, PcOf(w, k).obj)
    ensures
      var obj, now := PcOf(w, k).obj, Next(w, Call(k, o)).store.objects;
      && k in now && now[k].finalizers == obj.finalizers + {"firewall.opnsense.io/finalizer"}
      && now[k].spec == obj.spec && now[k].status == obj.status && now[k].generation == obj.generation
      && !now[k].deleting
  {
    assert KeyGood(w, k);
  }

  /** Its removal drops exactly it: the resource is gone if it had no other, and otherwise it keeps the others. */
  lemma FinalizerIsRemoved(w: World, k: Key, o: Outcome)
    requires Inv(w) && PcOf(w, k).RemovingFinalizer? && o.Performed() && Current(w.store, k, PcOf(w, k).obj)
    ensures
      var obj, now := PcOf(w, k).obj, Next(w, Call(k, o)).store.objects;
      && (k !in now <==> obj.finalizers == {"firewall.opnsense.io/finalizer"})
      && (k in now ==>
            && now[k].finalizers == obj.finalizers - {"firewall.opnsense.io/finalizer"}
            && now[k].spec == obj.spec && now[k].status == obj.status && now[k].deleting)
  {
    assert KeyGood(w, k);
    var others := PcOf(w, k).obj.finalizers - {FINALIZER};
    assert FINALIZER in PcOf(w, k).obj.finalizers;
    assert others == {} <==> PcOf(w, k).obj.finalizers == {FINALIZER};
  }

  // ---- The spared status write ----

  /**
   The short-circuit is exact: without drift, the reconcile stops without a write precisely when the status that
   success would write is the one already read, and that write would have left the store as it is.
   */
  lemma ShortcutIsExact(w0: World, es: seq<Event>, k: Key, uuid: Uuid, existing: Alias)
    requires Initial(w0)
    requires var pc := PcOf(Run(w0, es), k); pc.Reading? || pc.ReadingFound?
    requires !AliasNeedsUpdate(PcOf(Run(w0, es), k).obj.spec, existing)
    ensures
      var obj := PcOf(Run(w0, es), k).obj;
      var success := ReadyStatus(obj, uuid);
      && (AfterResolve(obj, uuid, existing).Idle? <==> success == obj.status)
      && (AfterResolve(obj, uuid, existing).Idle? ==>
            UpdateStatus(Run(w0, es).store, k, obj.(status := success)) == Run(w0, es).store)
  {
    ReachableInv(w0, es);
    assert KeyGood(Run(w0, es), k);
  }
}
