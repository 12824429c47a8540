/**
 When the live aliases follow the staged ones, and when a ready alias is live.
 */
module AliasLive {
  import opened Kube
  import opened Opnsense
  import opened AliasMachine
  import opened AliasSafety
  import opened AliasRecovery

  /** The reconcile is between a write and its reconfigure. */
  predicate ReconfigureDue(pc: Pc) {
    pc.Reconfiguring? || pc.ReconfiguringDelete?
  }

  /**
   The reply of no write is lost, no reconfigure fails to happen, no reconcile is cut before its reconfigure, and
   nobody but the operator writes.
   */
  predicate Clean(w: World, e: Event) {
    match e
    case Call(k, o) =>
      var pc := PcOf(w, k);
      && (pc.Creating? || pc.Updating? || pc.DeletingAlias? ==> !o.fate.FailedAfter?)
      && (ReconfigureDue(pc) ==> o.Performed())
    case Crash(k) => !ReconfigureDue(PcOf(w, k))
    case AdminAdd(_, _) => false
    case AdminSet(_, _) => false
    case AdminDelete(_) => false
    case _ => true
  }

  predicate CleanRun(w: World, es: seq<Event>) {
    forall i | 0 <= i < |es| :: Clean(Run(w, es[..i]), es[i])
  }

  ghost predicate LiveOrDue(w: World) {
    w.live == w.staged || exists k :: ReconfigureDue(PcOf(w, k))
  }

  lemma NextKeepsLiveOrDue(w: World, e: Event)
    requires LiveOrDue(w) && Clean(w, e)
    ensures LiveOrDue(Next(w, e))
  {
    var w' := Next(w, e);
    if Enabled(w, e) && w'.live != w'.staged {
      if e.Call? && w'.staged != w.staged {
        assert ReconfigureDue(PcOf(w', e.key));
      } else {
        var k :| ReconfigureDue(PcOf(w, k));
        assert ReconfigureDue(PcOf(w', k));
      }
    }
  }

  /** In clean runs live equals staged whenever no reconcile is between a write and its reconfigure. */
  lemma {:induction false} LiveFollowsStaged(w0: World, es: seq<Event>)
    requires w0.pcs == map[] && w0.live == w0.staged && CleanRun(w0, es)
    ensures LiveOrDue(Run(w0, es))
    ensures (forall k :: !ReconfigureDue(PcOf(Run(w0, es), k))) ==> Run(w0, es).live == Run(w0, es).staged
  {
    if es != [] {
      var init := es[..|es| - 1];
      assert forall i | 0 <= i < |init| :: init[..i] == es[..i];
      LiveFollowsStaged(w0, init);
      NextKeepsLiveOrDue(Run(w0, init), es[|es| - 1]);
    }
  }

  predicate AliasIsLive(w: World, u: Uuid) {
    u in w.staged && u in w.live && w.live[u] == w.staged[u]
  }

  /**
   From every reachable state, the alias that one undisturbed reconcile ends up with is live exactly if there was
   something to write, or it was live already. Ready=True does not need it to be.
   */
  lemma AliasIsLiveIff(w0: World, es: seq<Event>, k: Key, uuid: Uuid)
    requires Initial(w0) && Free(Run(w0, es), k, uuid)
    ensures
      var w, w' := Run(w0, es), Reconciled(Run(w0, es), k, uuid);
      AliasIsLive(w', Found(w, k).GetOr(uuid)) <==> WriteDue(w, k) || AliasIsLive(w, Found(w, k).GetOr(uuid))
  {
    ReachableInv(w0, es);
    FoundIsStaged(Run(w0, es), k);
    ReconciledIsBigStep(Run(w0, es), k, uuid);
  }
}
