/**
 Recovery: what undisturbed reconciles make of any state that faults may have left behind.
 */
module RuleRecovery {
  import opened Kube
  import opened Opnsense
  import opened RuleSpec
  import opened RuleMachine
  import opened RuleSafety
  import opened RuleDrift

  /** An upper bound on the calls a reconcile still makes. */
  function Remaining(pc: Pc): nat {
    match pc
    case Idle => 0
    case Connecting(_) => 8
    case Reading(_) => 7
    case Searching(_) => 6
    case ReadingHit(_, _) => 5
    case Creating(_) => 4
    case Updating(_, _) => 4
    case Applying(_, _) => 3
    case ReadingBack(_, _) => 2
    case DeletingRule(_) => 3
    case ApplyingDelete(_) => 2
    case _ => 1
  }

  /** Every call brings its reconcile closer to its end, whatever the outcome. */
  lemma CallsRunOut(w: World, k: Key, o: Outcome)
    requires !PcOf(w, k).Idle?
    ensures Remaining(PcAfter(w, k, o)) < Remaining(PcOf(w, k))
  {
  }

  /** Answers every call of the running reconcile of `k`, with nothing else happening, until it ends. */
  function Complete(w: World, k: Key, uuid: Uuid, sequence: string): World
    decreases Remaining(PcOf(w, k))
  {
    if PcOf(w, k).Idle? then w else
    CallsRunOut(w, k, Success(uuid, sequence));
    var w' := Perform(w, k, Success(uuid, sequence));
    Complete(w', k, uuid, sequence)
  }

  /** One fault-free, undisturbed reconcile; `uuid` and `sequence` are what addRule would hand out. */
  function Reconciled(w: World, k: Key, uuid: Uuid, sequence: string): World {
    Complete(w.(pcs := w.pcs[k := AfterGet(w.store, k)]), k, uuid, sequence)
  }

  /** `e` is a call of `k`'s reconcile that succeeds, or its successful start. */
  predicate FaultFree(e: Event, k: Key) {
    || (e.Begin? && e.key == k && e.ok)
    || (e.Call? && e.key == k && e.outcome.fate.Done?)
  }

  lemma {:induction false} CompleteIsRun(w: World, k: Key, uuid: Uuid, sequence: string) returns (es: seq<Event>)
    requires uuid != "" && (uuid !in w.used || Remaining(PcOf(w, k)) < 4)
    ensures Complete(w, k, uuid, sequence) == Run(w, es)
    ensures forall e | e in es :: FaultFree(e, k)
    decreases Remaining(PcOf(w, k))
  {
    if PcOf(w, k).Idle? {
      es := [];
    } else {
      var o := Success(uuid, sequence);
      CallsRunOut(w, k, o);
      var rest := CompleteIsRun(Perform(w, k, o), k, uuid, sequence);
      es := [Call(k, o)] + rest;
      assert Run(w, [Call(k, o)]) == Next(Run(w, []), Call(k, o));
      RunConcat(w, [Call(k, o)], rest);
    }
  }

  /** The undisturbed reconcile is a run of the protocol in which only `k` acts and nothing fails. */
  lemma ReconciledIsRun(w: World, k: Key, uuid: Uuid, sequence: string) returns (es: seq<Event>)
    requires PcOf(w, k).Idle? && uuid != "" && uuid !in w.used
    ensures Reconciled(w, k, uuid, sequence) == Run(w, es)
    ensures forall e | e in es :: FaultFree(e, k)
  {
    var start := Begin(k, true);
    assert Run(w, [start]) == Next(Run(w, []), start);
    var rest := CompleteIsRun(Next(w, start), k, uuid, sequence);
    RunConcat(w, [start], rest);
    es := [start] + rest;
  }

  /** Whatever the reconcile of `k` does, other resources stay as they are. */
  lemma {:induction false} CompleteLeavesOthers(w: World, k: Key, uuid: Uuid, sequence: string, j: Key)
    requires j != k
    ensures
      var w' := Complete(w, k, uuid, sequence);
      && (j in w.store.objects <==> j in w'.store.objects)
      && (j in w.store.objects ==> w.store.objects[j] == w'.store.objects[j])
      && PcOf(w', j) == PcOf(w, j)
    decreases Remaining(PcOf(w, k))
  {
    if !PcOf(w, k).Idle? {
      CallsRunOut(w, k, Success(uuid, sequence));
      CompleteLeavesOthers(Perform(w, k, Success(uuid, sequence)), k, uuid, sequence, j);
    }
  }

  /** It ends, keeps the spec of its resource, and brings at most the one new uuid into use. */
  lemma {:induction false} CompleteEnds(w: World, k: Key, uuid: Uuid, sequence: string)
    ensures
      var w' := Complete(w, k, uuid, sequence);
      && PcOf(w', k).Idle? && w.used <= w'.used <= w.used + {uuid}
      && (k in w'.store.objects ==> k in w.store.objects && w'.store.objects[k].spec == w.store.objects[k].spec)
    decreases Remaining(PcOf(w, k))
  {
    if !PcOf(w, k).Idle? {
      CallsRunOut(w, k, Success(uuid, sequence));
      CompleteEnds(Perform(w, k, Success(uuid, sequence)), k, uuid, sequence);
    }
  }

  /** The box carries the resource's rule and the status says so; a further reconcile has nothing to write. */
  ghost predicate Settled(w: World, k: Key) {
    && k in w.store.objects
    && var obj := w.store.objects[k];
    && !obj.deleting && FINALIZER in obj.finalizers
    && obj.status.uuid in w.staged
    && Agrees(obj.spec, k, w.staged[obj.status.uuid])
    && obj.status == ReadyStatus(obj, obj.status.uuid, w.staged[obj.status.uuid].sequence)
  }

  /** The recorded rule is missing, and the search for it finds several. */
  predicate Ambiguous(w: World, k: Key)
    requires k in w.store.objects
  {
    w.store.objects[k].status.uuid !in w.staged && |Hits(w.staged, k)| > 1
  }

  /** The reconcile of `k` works on an up-to-date copy of a live resource. */
  ghost predicate UpToDate(w: World, k: Key, obj: RuleObject) {
    k in w.store.objects && w.store.objects[k] == obj && !obj.deleting && FINALIZER in obj.finalizers
  }

  /** The rule that a lookup would find without ambiguity, if any. */
  function Found(w: World, k: Key): Option<Uuid>
    requires k in w.store.objects && !Ambiguous(w, k)
  {
    var u := w.store.objects[k].status.uuid;
    if u in w.staged then Some(u)
    else if |Hits(w.staged, k)| == 1 then Some(TheOnly(Hits(w.staged, k)))
    else None
  }

  /** The reconcile is going to write to the box: there is no rule yet, or it has drifted. */
  predicate WriteDue(w: World, k: Key)
    requires k in w.store.objects && !Ambiguous(w, k)
  {
    var found := Found(w, k);
    found.None? ||
    (found.value in w.staged && RuleNeedsUpdate(w.store.objects[k].spec, k, Decode(w.staged[found.value])))
  }

  // ---- The big step ----

  function StagedBy(w: World, k: Key, uuid: Uuid, sequence: string): Config
    requires k in w.store.objects && !Ambiguous(w, k)
  {
    var payload := EncodeFirewallRule(SpecToRule(w.store.objects[k].spec, k));
    match Found(w, k)
    case None => w.staged[uuid := StoreNew(payload, sequence)]
    case Some(u) => if WriteDue(w, k) && u in w.staged then w.staged[u := StoreOver(w.staged[u], payload)] else w.staged
  }

  /** The reconcile of `k` is over, and `obj` has got this status and is otherwise unchanged. */
  ghost predicate Ended(w: World, k: Key, obj: RuleObject, status: Status) {
    && PcOf(w, k).Idle? && k in w.store.objects
    && w.store.objects[k] == obj.(status := status, version := w.store.objects[k].version)
  }

  ghost predicate SameBox(w: World, w': World) {
    w'.staged == w.staged && w'.live == w.live && w'.used == w.used
  }

  /** `w'` is `w` after one big step of `k`. */
  ghost predicate Stepped(w: World, w': World, k: Key, uuid: Uuid, sequence: string)
    requires k in w.store.objects
  {
    var obj := w.store.objects[k];
    if Ambiguous(w, k) then
      SameBox(w, w') && Ended(w', k, obj, FailedStatus(obj, "LookupFailed", ""))
    else
      var u := Found(w, k).GetOr(uuid);
      && w'.staged == StagedBy(w, k, uuid, sequence)
      && w'.live == (if WriteDue(w, k) then w'.staged else w.live)
      && w'.used == (if Found(w, k).None? then w.used + {uuid} else w.used)
      && u in w'.staged && Ended(w', k, obj, ReadyStatus(obj, u, w'.staged[u].sequence))
  }

  /** A uuid that the reconcile may be handed out. */
  predicate Usable(w: World, k: Key, uuid: Uuid)
    requires k in w.store.objects
  {
    !Ambiguous(w, k) && Found(w, k).None? ==> uuid != "" && uuid !in w.used
  }

  // ---- The chain of calls makes the big step ----

  lemma FromSaving(w: World, k: Key, uuid: Uuid, sequence: string, obj: RuleObject)
    requires Inv(w) && UpToDate(w, k, obj)
    requires var pc := PcOf(w, k); (pc.SavingReady? || pc.SavingFailure?) && pc.obj == obj
    ensures
      var pc, w' := PcOf(w, k), Complete(w, k, uuid, sequence);
      && SameBox(w, w')
      && Ended(w', k, obj,
           if pc.SavingReady? then ReadyStatus(obj, pc.uuid, pc.sequence) else FailedStatus(obj, pc.reason, pc.message))
  {
    var w1 := Perform(w, k, Success(uuid, sequence));
    assert Complete(w, k, uuid, sequence) == Complete(w1, k, uuid, sequence) == w1;
  }

  lemma FromReadingBack(w: World, k: Key, uuid: Uuid, sequence: string, obj: RuleObject, u: Uuid)
    requires Inv(w) && UpToDate(w, k, obj) && u in w.staged && PcOf(w, k) == ReadingBack(obj, u)
    ensures
      var w' := Complete(w, k, uuid, sequence);
      SameBox(w, w') && Ended(w', k, obj, ReadyStatus(obj, u, w.staged[u].sequence))
  {
    CallKeepsInv(w, k, Success(uuid, sequence));
    FromSaving(Perform(w, k, Success(uuid, sequence)), k, uuid, sequence, obj);
  }

  lemma FromApplying(w: World, k: Key, uuid: Uuid, sequence: string, obj: RuleObject, u: Uuid)
    requires Inv(w) && UpToDate(w, k, obj) && u in w.staged && PcOf(w, k) == Applying(obj, u)
    ensures
      var w' := Complete(w, k, uuid, sequence);
      && w'.staged == w.staged && w'.live == w.staged && w'.used == w.used
      && Ended(w', k, obj, ReadyStatus(obj, u, w.staged[u].sequence))
  {
    CallKeepsInv(w, k, Success(uuid, sequence));
    FromReadingBack(Perform(w, k, Success(uuid, sequence)), k, uuid, sequence, obj, u);
  }

  lemma FromCreating(w: World, k: Key, uuid: Uuid, sequence: string, obj: RuleObject)
    requires Inv(w) && UpToDate(w, k, obj) && uuid != "" && uuid !in w.used && PcOf(w, k) == Creating(obj)
    requires !Ambiguous(w, k) && Found(w, k) == None
    ensures Stepped(w, Complete(w, k, uuid, sequence), k, uuid, sequence)
  {
    CallKeepsInv(w, k, Success(uuid, sequence));
    FromApplying(Perform(w, k, Success(uuid, sequence)), k, uuid, sequence, obj, uuid);
  }

  lemma FromUpdating(w: World, k: Key, uuid: Uuid, sequence: string, obj: RuleObject, u: Uuid)
    requires Inv(w) && UpToDate(w, k, obj) && PcOf(w, k) == Updating(obj, u) && u in w.staged
    requires !Ambiguous(w, k) && Found(w, k) == Some(u) && WriteDue(w, k)
    ensures Stepped(w, Complete(w, k, uuid, sequence), k, uuid, sequence)
  {
    CallKeepsInv(w, k, Success(uuid, sequence));
    FromApplying(Perform(w, k, Success(uuid, sequence)), k, uuid, sequence, obj, u);
  }

  lemma FromResolved(w: World, k: Key, uuid: Uuid, sequence: string, obj: RuleObject, u: Uuid)
    requires Inv(w) && ValidKey(k) && UpToDate(w, k, obj) && u in w.staged
    requires !Ambiguous(w, k) && Found(w, k) == Some(u)
    requires PcOf(w, k) == AfterResolve(k, obj, u, Decode(w.staged[u]))
    ensures Stepped(w, Complete(w, k, uuid, sequence), k, uuid, sequence)
  {
    var pc := PcOf(w, k);
    if pc.Updating? {
      FromUpdating(w, k, uuid, sequence, obj, u);
    } else if pc.SavingReady? {
      FromSaving(w, k, uuid, sequence, obj);
    } else {
      assert KeyGood(w, k);
    }
  }

  /** A successful call that only reads moves the program counter and nothing else. */
  lemma ReadStep(w: World, k: Key, uuid: Uuid, sequence: string) returns (w': World)
    requires Inv(w)
    requires var pc := PcOf(w, k); pc.Connecting? || pc.Reading? || pc.Searching? || pc.ReadingHit?
    ensures Inv(w') && PcOf(w', k) == PcAfter(w, k, Success(uuid, sequence)) && w'.store == w.store && SameBox(w, w')
    ensures Complete(w, k, uuid, sequence) == Complete(w', k, uuid, sequence)
  {
    w' := Perform(w, k, Success(uuid, sequence));
    CallKeepsInv(w, k, Success(uuid, sequence));
  }

  /** Reading first makes no difference to the big step. */
  lemma ReadThenStep(w: World, w1: World, w': World, k: Key, uuid: Uuid, sequence: string)
    requires k in w.store.objects && w1.store == w.store && SameBox(w, w1) && Stepped(w1, w', k, uuid, sequence)
    ensures Stepped(w, w', k, uuid, sequence)
  {
  }

  lemma FromReadingHit(w: World, k: Key, uuid: Uuid, sequence: string, obj: RuleObject)
    requires Inv(w) && ValidKey(k) && UpToDate(w, k, obj) && obj.status.uuid !in w.staged && |Hits(w.staged, k)| == 1
    requires PcOf(w, k) == ReadingHit(obj, TheOnly(Hits(w.staged, k)))
    ensures Stepped(w, Complete(w, k, uuid, sequence), k, uuid, sequence)
  {
    var u := TheOnly(Hits(w.staged, k));
    assert u in Hits(w.staged, k);
    var w1 := ReadStep(w, k, uuid, sequence);
    FromResolved(w1, k, uuid, sequence, obj, u);
    ReadThenStep(w, w1, Complete(w, k, uuid, sequence), k, uuid, sequence);
  }

  lemma FromSearching(w: World, k: Key, uuid: Uuid, sequence: string, obj: RuleObject)
    requires Inv(w) && ValidKey(k) && UpToDate(w, k, obj) && Usable(w, k, uuid)
    requires obj.status.uuid !in w.staged && PcOf(w, k) == Searching(obj)
    ensures Stepped(w, Complete(w, k, uuid, sequence), k, uuid, sequence)
  {
    var w1 := ReadStep(w, k, uuid, sequence);
    if |Hits(w.staged, k)| == 0 {
      FromCreating(w1, k, uuid, sequence, obj);
    } else if |Hits(w.staged, k)| == 1 {
      FromReadingHit(w1, k, uuid, sequence, obj);
    } else {
      FromSaving(w1, k, uuid, sequence, obj);
    }
    ReadThenStep(w, w1, Complete(w, k, uuid, sequence), k, uuid, sequence);
  }

  lemma FromReading(w: World, k: Key, uuid: Uuid, sequence: string, obj: RuleObject)
    requires Inv(w) && ValidKey(k) && UpToDate(w, k, obj) && Usable(w, k, uuid) && PcOf(w, k) == Reading(obj)
    ensures Stepped(w, Complete(w, k, uuid, sequence), k, uuid, sequence)
  {
    var w1 := ReadStep(w, k, uuid, sequence);
    if obj.status.uuid in w.staged {
      FromResolved(w1, k, uuid, sequence, obj, obj.status.uuid);
    } else {
      FromSearching(w1, k, uuid, sequence, obj);
    }
    ReadThenStep(w, w1, Complete(w, k, uuid, sequence), k, uuid, sequence);
  }

  lemma FromConnecting(w: World, k: Key, uuid: Uuid, sequence: string, obj: RuleObject)
    requires Inv(w) && ValidKey(k) && UpToDate(w, k, obj) && Usable(w, k, uuid) && PcOf(w, k) == Connecting(obj)
    ensures Stepped(w, Complete(w, k, uuid, sequence), k, uuid, sequence)
  {
    var w1 := ReadStep(w, k, uuid, sequence);
    if obj.status.uuid == "" {
      FromSearching(w1, k, uuid, sequence, obj);
    } else {
      FromReading(w1, k, uuid, sequence, obj);
    }
    ReadThenStep(w, w1, Complete(w, k, uuid, sequence), k, uuid, sequence);
  }

  /**
   One undisturbed reconcile is one big step: it creates, updates, only looks, or fails on an ambiguous lookup,
   by what it finds, and leaves every other rule, the spec and everything else of the resource alone.
   */
  lemma ReconciledIsBigStep(w: World, k: Key, uuid: Uuid, sequence: string)
    requires Inv(w) && HasFinalizer(w, k) && !w.store.objects[k].deleting && PcOf(w, k).Idle? && Usable(w, k, uuid)
    ensures Stepped(w, Reconciled(w, k, uuid, sequence), k, uuid, sequence)
  {
    NextKeepsInv(w, Begin(k, true));
    var w1 := Next(w, Begin(k, true));
    FromConnecting(w1, k, uuid, sequence, w.store.objects[k]);
    ReadThenStep(w, w1, Reconciled(w, k, uuid, sequence), k, uuid, sequence);
  }

  // ---- What the big step means ----

  /** Every staged rule other than `u` is as it was. */
  ghost predicate OthersKept(w: World, w': World, u: Uuid) {
    forall v | v in w.staged && v != u :: v in w'.staged && w'.staged[v] == w.staged[v]
  }

  /**
   What a fault-free reconcile achieves: it settles the resource on the rule it found, or else on the one it
   created; no other rule comes, goes or changes, and the live configuration is touched exactly if it had to write.
   */
  ghost predicate Achieved(w: World, w': World, k: Key, uuid: Uuid)
    requires k in w.store.objects && !Ambiguous(w, k)
  {
    var u := Found(w, k).GetOr(uuid);
    && Settled(w', k) && w'.store.objects[k].status.uuid == u && w'.staged.Keys == w.staged.Keys + {u}
    && OthersKept(w, w', u)
    && (if WriteDue(w, k) then w'.live == w'.staged else w'.staged == w.staged && w'.live == w.live)
  }

  lemma FoundIsStaged(w: World, k: Key)
    requires k in w.store.objects && !Ambiguous(w, k)
    ensures Found(w, k).Some? ==> Found(w, k).value in w.staged
  {
    if Found(w, k).Some? && w.store.objects[k].status.uuid !in w.staged {
      assert Found(w, k).value in Hits(w.staged, k);
    }
  }

  lemma StepAchieves(w: World, w': World, k: Key, uuid: Uuid, sequence: string)
    requires HasFinalizer(w, k) && !w.store.objects[k].deleting && Stepped(w, w', k, uuid, sequence)
    ensures if Ambiguous(w, k) then !Settled(w', k) else Achieved(w, w', k, uuid)
  {
    var spec := w.store.objects[k].spec;
    if !Ambiguous(w, k) {
      FoundIsStaged(w, k);
      match Found(w, k) {
        case None => CreateConverges(spec, k, sequence);
        case Some(u) =>
          DriftTestIsExact(spec, k, w.staged[u]);
          UpdateConverges(spec, k, w.staged[u]);
      }
    }
  }

  // ---- The recovery theorems ----

  /**
   From every reachable state, whatever faults led to it, one undisturbed reconcile of a resource that
   has its finalizer and is not being deleted settles it if and only if its lookup is not ambiguous.
   */
  lemma OneReconcileSettles(w0: World, es: seq<Event>, k: Key, uuid: Uuid, sequence: string)
    requires Initial(w0)
    requires var w := Run(w0, es);
             HasFinalizer(w, k) && !w.store.objects[k].deleting && PcOf(w, k).Idle? && uuid != "" && uuid !in w.used
    ensures var w := Run(w0, es);
            Settled(Reconciled(w, k, uuid, sequence), k) <==> !Ambiguous(w, k)
  {
    var w := Run(w0, es);
    ReachableInv(w0, es);
    ReconciledAchieves(w, k, uuid, sequence);
  }

  lemma ReconciledAchieves(w: World, k: Key, uuid: Uuid, sequence: string)
    requires Inv(w) && HasFinalizer(w, k) && !w.store.objects[k].deleting && PcOf(w, k).Idle?
    requires uuid != "" && uuid !in w.used
    ensures
      var w' := Reconciled(w, k, uuid, sequence);
      if Ambiguous(w, k) then w'.staged == w.staged && w'.live == w.live && !Settled(w', k)
      else Achieved(w, w', k, uuid)
  {
    ReconciledIsBigStep(w, k, uuid, sequence);
    StepAchieves(w, Reconciled(w, k, uuid, sequence), k, uuid, sequence);
  }

  /** A settled resource stays settled, and its next reconcile writes neither to the box nor to the store. */
  lemma SettledIsFixpoint(w: World, k: Key, uuid: Uuid, sequence: string)
    requires Inv(w) && Settled(w, k) && PcOf(w, k).Idle?
    ensures var w' := Reconciled(w, k, uuid, sequence);
            && w'.staged == w.staged && w'.live == w.live && w'.store == w.store && w'.used == w.used
            && Settled(w', k)
  {
    assert KeyGood(w, k);
    var obj := w.store.objects[k];
    DriftTestIsExact(obj.spec, k, w.staged[obj.status.uuid]);
    NextKeepsInv(w, Begin(k, true));
    var w1 := Next(w, Begin(k, true));
    var w2 := ReadStep(w1, k, uuid, sequence);
    var w3 := ReadStep(w2, k, uuid, sequence);
    assert PcOf(w3, k) == Idle;
  }

  /** A resource without its finalizer gets it in one reconcile, and nothing else happens. */
  lemma FinalizerFirst(w: World, k: Key, uuid: Uuid, sequence: string)
    requires Inv(w) && k in w.store.objects && !w.store.objects[k].deleting && !HasFinalizer(w, k)
    ensures
      var w' := Reconciled(w, k, uuid, sequence);
      && HasFinalizer(w', k) && !w'.store.objects[k].deleting && PcOf(w', k).Idle?
      && w'.store.objects[k].finalizers ==
           w.store.objects[k].finalizers + {"firewall.opnsense.io/firewallrule-finalizer"}
      && w'.staged == w.staged && w'.live == w.live && w'.used == w.used
      && w'.store.objects[k].spec == w.store.objects[k].spec && w'.store.objects[k].status == w.store.objects[k].status
  {
    var o := Success(uuid, sequence);
    var w1 := w.(pcs := w.pcs[k := AfterGet(w.store, k)]);
    var w2 := Perform(w1, k, o);
    assert Complete(w1, k, uuid, sequence) == Complete(w2, k, uuid, sequence) == w2;
  }

  // ---- Deletion ----

  lemma FromRemovingFinalizer(w: World, k: Key, uuid: Uuid, sequence: string, obj: RuleObject)
    requires Inv(w) && ValidKey(k) && k in w.store.objects && w.store.objects[k] == obj
    requires PcOf(w, k) == RemovingFinalizer(obj)
    ensures var w' := Complete(w, k, uuid, sequence); !HasFinalizer(w', k) && w'.staged == w.staged && w'.live == w.live
  {
    var w1 := Perform(w, k, Success(uuid, sequence));
    assert Complete(w, k, uuid, sequence) == Complete(w1, k, uuid, sequence) == w1;
  }

  lemma FromDeletingRule(w: World, k: Key, uuid: Uuid, sequence: string, obj: RuleObject)
    requires Inv(w) && ValidKey(k) && k in w.store.objects && w.store.objects[k] == obj
    requires PcOf(w, k) == DeletingRule(obj)
    ensures var w' := Complete(w, k, uuid, sequence);
            !HasFinalizer(w', k) && w'.staged == w.staged - {obj.status.uuid} && w'.live == w'.staged
  {
    var o := Success(uuid, sequence);
    CallKeepsInv(w, k, o);
    var w1 := Perform(w, k, o);
    CallKeepsInv(w1, k, o);
    FromRemovingFinalizer(Perform(w1, k, o), k, uuid, sequence, obj);
  }

  /** No live rule bears the tag of `k`. */
  ghost predicate NoneLive(w: World, k: Key) {
    forall v | v in w.live :: !Bears(w.live[v].description, k)
  }

  /**
   The exact conditions under which an undisturbed deletion leaves no rule with the resource's tag behind. None is
   staged if the status recorded a staged rule, or there was none. None is live either if, in the second
   case, the status recorded any rule, as only then the box is told to apply, or none was live before.
   */
  lemma DeletionLeavesNothingIff(w0: World, es: seq<Event>, k: Key, uuid: Uuid, sequence: string)
    requires Initial(w0) && ValidKey(k)
    requires var w := Run(w0, es); HasFinalizer(w, k) && w.store.objects[k].deleting && PcOf(w, k).Idle?
    ensures
      var w := Run(w0, es);
      var w' := Reconciled(w, k, uuid, sequence);
      && !HasFinalizer(w', k)
      && var u := w.store.objects[k].status.uuid;
      && (NoneMarked(w', k) <==> u in w.staged || NoneMarked(w, k))
      && (NoneMarked(w', k) && NoneLive(w', k) <==>
            u in w.staged || (NoneMarked(w, k) && (u != "" || NoneLive(w, k))))
  {
    var w := Run(w0, es);
    var obj := w.store.objects[k];
    ReachableInv(w0, es);
    NextKeepsInv(w, Begin(k, true));
    var w1 := Next(w, Begin(k, true));
    if obj.status.uuid == "" {
      FromRemovingFinalizer(w1, k, uuid, sequence, obj);
    } else {
      FromDeleting(w1, k, uuid, sequence, obj);
    }
    RemovalLeaves(w, Reconciled(w, k, uuid, sequence), k);
  }

  lemma FromDeleting(w: World, k: Key, uuid: Uuid, sequence: string, obj: RuleObject)
    requires Inv(w) && ValidKey(k) && k in w.store.objects && w.store.objects[k] == obj && obj.deleting
    requires PcOf(w, k) == Connecting(obj)
    ensures var w' := Complete(w, k, uuid, sequence);
            !HasFinalizer(w', k) && w'.staged == w.staged - {obj.status.uuid} && w'.live == w'.staged
  {
    CallKeepsInv(w, k, Success(uuid, sequence));
    FromDeletingRule(Perform(w, k, Success(uuid, sequence)), k, uuid, sequence, obj);
  }

  /** What is left of the rules of `k` when its recorded rule is taken out of the box, or nothing is for want of one. */
  lemma RemovalLeaves(w: World, w': World, k: Key)
    requires Inv(w) && ValidKey(k) && k in w.store.objects
    requires
      var u := w.store.objects[k].status.uuid;
      if u == "" then w'.staged == w.staged && w'.live == w.live
      else w'.staged == w.staged - {u} && w'.live == w'.staged
    ensures
      var u := w.store.objects[k].status.uuid;
      && (NoneMarked(w', k) <==> u in w.staged || NoneMarked(w, k))
      && (NoneMarked(w', k) && NoneLive(w', k) <==>
            u in w.staged || (NoneMarked(w, k) && (u != "" || NoneLive(w, k))))
  {
    var u := w.store.objects[k].status.uuid;
    assert KeyGood(w, k);
    assert "" !in w.staged;
    assert forall v :: Marked(w', v, k) <==> Marked(w, v, k) && v != u;
    if u != "" {
      AppliedLive(w', k);
    }
  }

  lemma AppliedLive(w: World, k: Key)
    requires w.live == w.staged
    ensures NoneLive(w, k) <==> NoneMarked(w, k)
  {
    assert forall v | v in w.live :: Bears(w.live[v].description, k) <==> Marked(w, v, k);
  }
}
