/**
 The safety theorems about every run of the protocol, stated for runs from a box that no operator has
 touched, with any interleaving of resources and any pattern of failures, lost replies and crashes.
 */
module RuleTheorems {
  import opened Kube
  import opened Opnsense
  import opened RuleSpec
  import opened RuleMachine
  import opened RuleSafety

  /** At most one staged rule bears a resource's tag; while the recorded rule is staged, it is that one. */
  lemma AtMostOnceCreation(w0: World, es: seq<Event>, k: Key)
    requires Initial(w0) && ValidKey(k)
    ensures
      var w := Run(w0, es);
      && (forall u, v | u in w.staged && v in w.staged &&
            Bears(w.staged[u].description, k) && Bears(w.staged[v].description, k) :: u == v)
      && (k in w.store.objects && w.store.objects[k].status.uuid in w.staged ==>
            forall v | v in w.staged && Bears(w.staged[v].description, k) :: v == w.store.objects[k].status.uuid)
  {
    ReachableInv(w0, es);
    var w := Run(w0, es);
    assert KeyGood(w, k);
    assert forall u | u in w.staged && Bears(w.staged[u].description, k) :: Marked(w, u, k);
  }

  // ---- Cleanup ----

  lemma NextKeepsGone(w: World, e: Event, u: Uuid)
    requires Inv(w) && Gone(w, u)
    ensures Gone(Next(w, e), u)
  {
  }

  lemma {:induction false} GoneForever(w: World, es: seq<Event>, u: Uuid)
    requires Inv(w) && Gone(w, u)
    ensures Gone(Run(w, es), u)
  {
    if es != [] {
      var init := es[..|es| - 1];
      GoneForever(w, init, u);
      RunKeepsInv(w, init);
      NextKeepsGone(Run(w, init), es[|es| - 1], u);
    }
  }

  /** Only the resource's own reconcile drops its finalizer, and only once its rule is out of both configurations. */
  lemma FinalizerDropsLast(w: World, e: Event, k: Key)
    requires Inv(w) && HasFinalizer(w, k) && !HasFinalizer(Next(w, e), k)
    ensures e.Call? && e.key == k && PcOf(w, k).RemovingFinalizer? && w.store.objects[k].deleting
    ensures var u := w.store.objects[k].status.uuid; u != "" ==> Gone(Next(w, e), u)
  {
    assert KeyGood(w, k);
    if e.Call? && e.key != k {
      CallLeavesOthers(w, e.key, e.outcome, k);
    }
  }

  /**
   Cleanup is permanent: once the finalizer of a resource with a recorded rule is gone, that rule is
   neither staged nor live, then and in every later state, whatever failed before.
   */
  lemma CleanupIsPermanent(w0: World, es: seq<Event>, e: Event, fs: seq<Event>, k: Key)
    requires Initial(w0)
    requires HasFinalizer(Run(w0, es), k) && Run(w0, es).store.objects[k].status.uuid != ""
    requires !HasFinalizer(Run(w0, es + [e]), k)
    ensures var u := Run(w0, es).store.objects[k].status.uuid;
            u !in Run(w0, es + [e] + fs).staged && u !in Run(w0, es + [e] + fs).live
  {
    var w := Run(w0, es);
    var u := w.store.objects[k].status.uuid;
    ReachableInv(w0, es);
    assert (es + [e])[..|es + [e]| - 1] == es;
    FinalizerDropsLast(w, e, k);
    NextKeepsInv(w, e);
    RunConcat(w0, es + [e], fs);
    GoneForever(Next(w, e), fs, u);
  }

  // ---- Status and finalizer ----

  /** A recorded uuid is backed by the finalizer, or by a completed cleanup; observedGeneration never runs ahead. */
  lemma StatusIsBacked(w0: World, es: seq<Event>, k: Key)
    requires Initial(w0) && k in Run(w0, es).store.objects
    ensures
      var w := Run(w0, es);
      var obj := w.store.objects[k];
      && obj.status.observedGeneration <= obj.generation
      && (obj.status.uuid != "" ==>
            || FINALIZER in obj.finalizers
            || (obj.deleting && obj.status.uuid !in w.staged && obj.status.uuid !in w.live))
  {
    ReachableInv(w0, es);
    assert KeyGood(Run(w0, es), k);
  }

  /** As long as the resource exists, no event empties its recorded uuid. */
  lemma UuidNeverCleared(w0: World, es: seq<Event>, e: Event, k: Key)
    requires Initial(w0)
    requires k in Run(w0, es).store.objects && k in Next(Run(w0, es), e).store.objects
    requires Run(w0, es).store.objects[k].status.uuid != ""
    ensures Next(Run(w0, es), e).store.objects[k].status.uuid != ""
  {
    ReachableInv(w0, es);
    var w := Run(w0, es);
    assert KeyGood(w, k);
    if Enabled(w, e) && e.Call? && e.key != k {
      CallLeavesOthers(w, e.key, e.outcome, k);
    }
  }

  /** Every write to the box happens while the writer's finalizer is persisted. */
  lemma WritesNeedFinalizer(w0: World, es: seq<Event>, k: Key, o: Outcome)
    requires Initial(w0)
    requires var w := Run(w0, es); Next(w, Call(k, o)).staged != w.staged || Next(w, Call(k, o)).live != w.live
    ensures HasFinalizer(Run(w0, es), k)
  {
    ReachableInv(w0, es);
    assert KeyGood(Run(w0, es), k);
  }

  // ---- What is stored ----

  /** A save of a failure that takes effect stores exactly its reason and message, and keeps the rest of the status. */
  lemma FailureIsStored(w: World, k: Key, o: Outcome)
    requires PcOf(w, k).SavingFailure? && o.Performed() && Current(w.store, k, PcOf(w, k).obj)
    ensures
      var pc, now := PcOf(w, k), Next(w, Call(k, o)).store.objects;
      && k in now
      && now[k].status.ready == Some(Condition(false, pc.reason, pc.message, pc.obj.generation))
      && now[k].status.uuid == pc.obj.status.uuid
      && now[k].status.sequence == pc.obj.status.sequence
      && now[k].status.observedGeneration == pc.obj.status.observedGeneration
  {
  }

  /** A save of success that takes effect stores the rule, its sequence and the generation, in fixed words. */
  lemma SuccessIsStored(w: World, k: Key, o: Outcome)
    requires PcOf(w, k).SavingReady? && o.Performed() && Current(w.store, k, PcOf(w, k).obj)
    ensures
      var pc, now := PcOf(w, k), Next(w, Call(k, o)).store.objects;
      && k in now
      && now[k].status.uuid == pc.uuid && now[k].status.sequence == pc.sequence
      && now[k].status.observedGeneration == pc.obj.generation
      && now[k].status.ready ==
           Some(Condition(true, "FirewallRuleReady", "FirewallRule is in sync with OPNsense", pc.obj.generation))
  {
  }

  /** A write of the finalizer that takes effect adds exactly it, and changes nothing else of the resource. */
  lemma FinalizerIsAdded(w: World, k: Key, o: Outcome)
    requires Inv(w) && ValidKey(k) && PcOf(w, k).AddingFinalizer?
    requires o.Performed() && Current(w.store, k, PcOf(w, k).obj)
    ensures
      var obj, now := PcOf(w, k).obj, Next(w, Call(k, o)).store.objects;
      && k in now && now[k].finalizers == obj.finalizers + {"firewall.opnsense.io/firewallrule-finalizer"}
      && now[k].spec == obj.spec && now[k].status == obj.status && now[k].generation == obj.generation
      && !now[k].deleting
  {
    assert KeyGood(w, k);
  }

  /** Its removal drops exactly it: the resource is gone if it had no other, and otherwise it keeps the others. */
  lemma FinalizerIsRemoved(w: World, k: Key, o: Outcome)
    requires Inv(w) && ValidKey(k) && PcOf(w, k).RemovingFinalizer?
    requires o.Performed() && Current(w.store, k, PcOf(w, k).obj)
    ensures
      var obj, now := PcOf(w, k).obj, Next(w, Call(k, o)).store.objects;
      && (k !in now <==> obj.finalizers == {"firewall.opnsense.io/firewallrule-finalizer"})
      && (k in now ==>
            && now[k].finalizers == obj.finalizers - {"firewall.opnsense.io/firewallrule-finalizer"}
            && now[k].spec == obj.spec && now[k].status == obj.status && now[k].deleting)
  {
    assert KeyGood(w, k);
    var others := PcOf(w, k).obj.finalizers - {FINALIZER};
    assert FINALIZER in PcOf(w, k).obj.finalizers;
    assert others == {} <==> PcOf(w, k).obj.finalizers == {FINALIZER};
  }

  // ---- The spared status write ----

  /**
   The short-circuit is exact: at every decision of every run without drift, the reconcile stops without
   a write precisely when the status that success would write is the one already read, and the write
   that it spares would have left the store as it is.
   */
  lemma ShortcutIsExact(w0: World, es: seq<Event>, k: Key, uuid: Uuid, existing: FirewallRule)
    requires Initial(w0)
    requires var pc := PcOf(Run(w0, es), k); pc.Reading? || pc.ReadingHit?
    requires !RuleNeedsUpdate(PcOf(Run(w0, es), k).obj.spec, k, existing)
    ensures
      var obj := PcOf(Run(w0, es), k).obj;
      var success := ReadyStatus(obj, uuid, existing.sequence);
      && (AfterResolve(k, obj, uuid, existing).Idle? <==> success == obj.status)
      && (AfterResolve(k, obj, uuid, existing).Idle? ==>
            UpdateStatus(Run(w0, es).store, k, obj.(status := success)) == Run(w0, es).store)
  {
    ReachableInv(w0, es);
    assert KeyGood(Run(w0, es), k);
  }
}
