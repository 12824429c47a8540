/**
 When the live configuration follows the staged one, and when it does not.
 */
module RuleLive {
  import opened Kube
  import opened Opnsense
  import opened RuleMachine
  import opened RuleSafety
  import opened RuleRecovery

  /** The reconcile is between a write and its apply. */
  predicate ApplyDue(pc: Pc) {
    pc.Applying? || pc.ApplyingDelete?
  }

  /**
   The reply of no write is lost, no apply fails to happen, no reconcile is cut before its apply, and nobody
   but the operator writes.
   */
  predicate Clean(w: World, e: Event) {
    match e
    case Call(k, o) =>
      var pc := PcOf(w, k);
      && (pc.Creating? || pc.Updating? || pc.DeletingRule? ==> !o.fate.FailedAfter?)
      && (ApplyDue(pc) ==> o.Performed())
    case Crash(k) => !ApplyDue(PcOf(w, k))
    case AdminAdd(_, _) => false
    case AdminSet(_, _) => false
    case AdminDelete(_) => false
    case _ => true
  }

  predicate CleanRun(w: World, es: seq<Event>) {
    forall i | 0 <= i < |es| :: Clean(Run(w, es[..i]), es[i])
  }

  ghost predicate LiveOrDue(w: World) {
    w.live == w.staged || exists k :: ApplyDue(PcOf(w, k))
  }

  lemma NextKeepsLiveOrDue(w: World, e: Event)
    requires LiveOrDue(w) && Clean(w, e)
    ensures LiveOrDue(Next(w, e))
  {
    var w' := Next(w, e);
    if Enabled(w, e) && w'.live != w'.staged {
      if e.Call? && w'.staged != w.staged {
        assert ApplyDue(PcOf(w', e.key));
      } else {
        var k :| ApplyDue(PcOf(w, k));
        assert ApplyDue(PcOf(w', k));
      }
    }
  }

  /** In clean runs the live configuration is the staged one whenever no reconcile is between a write and its apply. */
  lemma {:induction false} LiveFollowsStaged(w0: World, es: seq<Event>)
    requires w0.pcs == map[] && w0.live == w0.staged && CleanRun(w0, es)
    ensures LiveOrDue(Run(w0, es))
    ensures (forall k :: !ApplyDue(PcOf(Run(w0, es), k))) ==> Run(w0, es).live == Run(w0, es).staged
  {
    if es != [] {
      var init := es[..|es| - 1];
      assert forall i | 0 <= i < |init| :: init[..i] == es[..i];
      LiveFollowsStaged(w0, init);
      NextKeepsLiveOrDue(Run(w0, init), es[|es| - 1]);
    }
  }

  // ---- Ready=True does not mean live ----

  predicate RuleIsLive(w: World, u: Uuid) {
    u in w.staged && u in w.live && w.live[u] == w.staged[u]
  }

  /**
   The exact condition under which an undisturbed successful reconcile of a resource in any reachable
   state leaves its rule live: it had something to write, or the rule that it found was live already.
   */
  lemma ReadyRuleIsLiveIff(w0: World, es: seq<Event>, k: Key, uuid: Uuid, sequence: string)
    requires Initial(w0)
    requires var w := Run(w0, es);
             && HasFinalizer(w, k) && !w.store.objects[k].deleting && PcOf(w, k).Idle?
             && uuid != "" && uuid !in w.used && !Ambiguous(w, k)
    ensures
      var w := Run(w0, es);
      var w' := Reconciled(w, k, uuid, sequence);
      && Settled(w', k)
      && (RuleIsLive(w', w'.store.objects[k].status.uuid) <==>
            WriteDue(w, k) || RuleIsLive(w, Found(w, k).value))
  {
    ReachableInv(w0, es);
    ReconciledAchieves(Run(w0, es), k, uuid, sequence);
  }
}
