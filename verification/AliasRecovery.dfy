/**
 What undisturbed reconciles make of an alias, whatever state faults have left behind: the chain of calls is
 proved to have the effect of one big step, and what it settles and what it does not is read off that step.
 */
module AliasRecovery {
  import opened Kube
  import opened Opnsense
  import opened AliasSpec
  import opened AliasMachine
  import opened AliasSafety
  import opened AliasReady

  /** An upper bound on the calls a reconcile still makes. */
  function Remaining(pc: Pc): nat {
    match pc
    case Idle => 0
    case Connecting(_) => 7
    case Reading(_) => 6
    case LookingUp(_) => 5
    case ReadingFound(_, _) => 4
    case Creating(_) => 3
    case Updating(_, _) => 3
    case Reconfiguring(_, _) => 2
    case DeletingAlias(_) => 3
    case ReconfiguringDelete(_) => 2
    case _ => 1
  }

  /** Every call brings its reconcile closer to its end, whatever the outcome. */
  lemma CallsRunOut(w: World, k: Key, o: Outcome)
    requires !PcOf(w, k).Idle?
    ensures Remaining(PcAfter(w, k, o)) < Remaining(PcOf(w, k))
  {
  }

  function Complete(w: World, k: Key, uuid: Uuid): World
    decreases Remaining(PcOf(w, k))
  {
    if PcOf(w, k).Idle? then w else
    CallsRunOut(w, k, Success(uuid));
    var w' := Perform(w, k, Success(uuid));
    Complete(w', k, uuid)
  }

  /** One fault-free, undisturbed reconcile; `uuid` is what addItem would hand out. */
  function Reconciled(w: World, k: Key, uuid: Uuid): World {
    Complete(w.(pcs := w.pcs[k := AfterGet(w.store, k)]), k, uuid)
  }

  /** `e` is a call of `k`'s reconcile that succeeds, or its successful start. */
  predicate FaultFree(e: Event, k: Key) {
    || (e.Begin? && e.key == k && e.ok)
    || (e.Call? && e.key == k && e.outcome.fate.Done?)
  }

  lemma {:induction false} CompleteIsRun(w: World, k: Key, uuid: Uuid) returns (es: seq<Event>)
    requires uuid != "" && (uuid !in w.used || Remaining(PcOf(w, k)) < 3)
    ensures Complete(w, k, uuid) == Run(w, es)
    ensures forall e | e in es :: FaultFree(e, k)
    decreases Remaining(PcOf(w, k))
  {
    if PcOf(w, k).Idle? {
      es := [];
    } else {
      var o := Success(uuid);
      CallsRunOut(w, k, o);
      var rest := CompleteIsRun(Perform(w, k, o), k, uuid);
      es := [Call(k, o)] + rest;
      assert Run(w, [Call(k, o)]) == Next(Run(w, []), Call(k, o));
      RunConcat(w, [Call(k, o)], rest);
    }
  }

  /** The undisturbed reconcile is a run of the protocol in which only `k` acts and nothing fails. */
  lemma ReconciledIsRun(w: World, k: Key, uuid: Uuid) returns (es: seq<Event>)
    requires PcOf(w, k).Idle? && uuid != "" && uuid !in w.used
    ensures Reconciled(w, k, uuid) == Run(w, es)
    ensures forall e | e in es :: FaultFree(e, k)
  {
    var start := Begin(k, true);
    assert Run(w, [start]) == Next(Run(w, []), start);
    var rest := CompleteIsRun(Next(w, start), k, uuid);
    RunConcat(w, [start], rest);
    es := [start] + rest;
  }

  /** Whatever the reconcile of `k` does, other resources stay as they are. */
  lemma {:induction false} CompleteLeavesOthers(w: World, k: Key, uuid: Uuid, j: Key)
    requires j != k
    ensures
      var w' := Complete(w, k, uuid);
      && (j in w.store.objects <==> j in w'.store.objects)
      && (j in w.store.objects ==> w.store.objects[j] == w'.store.objects[j])
      && PcOf(w', j) == PcOf(w, j)
    decreases Remaining(PcOf(w, k))
  {
    if !PcOf(w, k).Idle? {
      CallsRunOut(w, k, Success(uuid));
      CompleteLeavesOthers(Perform(w, k, Success(uuid)), k, uuid, j);
    }
  }

  // ---- What a reconcile finds, and the big step ----

  /** The box carries the resource's alias and the status says so. */
  ghost predicate Settled(w: World, k: Key) {
    && k in w.store.objects
    && var obj := w.store.objects[k];
    && !obj.deleting && FINALIZER in obj.finalizers
    && obj.status.uuid in w.staged
    && !AliasNeedsUpdate(obj.spec, DecodeAlias(w.staged[obj.status.uuid]))
    && obj.status == ReadyStatus(obj, obj.status.uuid)
  }

  /** The alias that a lookup finds: the recorded one, or the one with the resource's alias name. */
  function Found(w: World, k: Key): Option<Uuid>
    requires k in w.store.objects
  {
    var obj := w.store.objects[k];
    if obj.status.uuid in w.staged then Some(obj.status.uuid) else ByName(w.staged, obj.spec.name)
  }

  predicate Drifted(w: World, spec: Spec, u: Uuid) {
    u in w.staged && AliasNeedsUpdate(spec, DecodeAlias(w.staged[u]))
  }

  /** The alias found has drifted, and the box will not take the update, since another alias has the name. */
  predicate NameClash(w: World, k: Key)
    requires k in w.store.objects
  {
    var spec := w.store.objects[k].spec;
    var found := Found(w, k);
    found.Some? && Drifted(w, spec, found.value) && NameTaken(w.staged, spec.name, {found.value})
  }

  predicate WriteDue(w: World, k: Key)
    requires k in w.store.objects
  {
    var found := Found(w, k);
    found.None? || (Drifted(w, w.store.objects[k].spec, found.value) && !NameClash(w, k))
  }

  function StagedBy(w: World, k: Key, uuid: Uuid): Config
    requires k in w.store.objects
  {
    var payload := EncodeAlias(SpecToAlias(w.store.objects[k].spec));
    match Found(w, k)
    case None => w.staged[uuid := StoreNewAlias(payload)]
    case Some(u) =>
      if WriteDue(w, k) && u in w.staged then w.staged[u := StoreOverAlias(w.staged[u], payload)] else w.staged
  }

  function StatusBy(w: World, k: Key, uuid: Uuid): Status
    requires k in w.store.objects
  {
    var obj := w.store.objects[k];
    if NameClash(w, k) then FailedStatus(obj, "ValidationFailed", "") else ReadyStatus(obj, Found(w, k).GetOr(uuid))
  }

  /** `w'` is `w` after one big step of `k`. */
  ghost predicate Stepped(w: World, w': World, k: Key, uuid: Uuid)
    requires k in w.store.objects
  {
    && w'.staged == StagedBy(w, k, uuid)
    && w'.live == (if WriteDue(w, k) then w'.staged else w.live)
    && w'.used == (if Found(w, k).None? then w.used + {uuid} else w.used)
    && Ended(w', k, w.store.objects[k], StatusBy(w, k, uuid))
  }

  /** The reconcile of `k` is over, and `obj` has got this status and is otherwise unchanged. */
  ghost predicate Ended(w: World, k: Key, obj: AliasObject, status: Status) {
    && PcOf(w, k).Idle? && k in w.store.objects
    && w.store.objects[k] == obj.(status := status, version := w.store.objects[k].version)
  }

  ghost predicate UpToDate(w: World, k: Key, obj: AliasObject) {
    k in w.store.objects && w.store.objects[k] == obj && !obj.deleting && FINALIZER in obj.finalizers
  }

  ghost predicate SameBox(w: World, w': World) {
    w'.staged == w.staged && w'.live == w.live && w'.used == w.used
  }

  // ---- The chain of calls makes the big step ----

  lemma FromSaving(w: World, k: Key, uuid: Uuid, obj: AliasObject)
    requires Inv(w) && UpToDate(w, k, obj)
    requires var pc := PcOf(w, k); (pc.SavingReady? || pc.SavingFailure?) && pc.obj == obj
    ensures
      var pc, w' := PcOf(w, k), Complete(w, k, uuid);
      && SameBox(w, w')
      && Ended(w', k, obj,
           if pc.SavingReady? then ReadyStatus(obj, pc.uuid) else FailedStatus(obj, pc.reason, pc.message))
  {
    var w1 := Perform(w, k, Success(uuid));
    assert Complete(w, k, uuid) == Complete(w1, k, uuid) == w1;
  }

  lemma FromReconfiguring(w: World, k: Key, uuid: Uuid, obj: AliasObject, u: Uuid)
    requires Inv(w) && UpToDate(w, k, obj) && PcOf(w, k) == Reconfiguring(obj, u)
    ensures
      var w' := Complete(w, k, uuid);
      w'.staged == w.staged && w'.live == w.staged && w'.used == w.used && Ended(w', k, obj, ReadyStatus(obj, u))
  {
    CallKeepsInv(w, k, Success(uuid));
    FromSaving(Perform(w, k, Success(uuid)), k, uuid, obj);
  }

  lemma FromCreating(w: World, k: Key, uuid: Uuid, obj: AliasObject)
    requires Inv(w) && UpToDate(w, k, obj) && uuid != "" && uuid !in w.used
    requires PcOf(w, k) == Creating(obj) && obj.status.uuid !in w.staged && ByName(w.staged, obj.spec.name) == None
    ensures Stepped(w, Complete(w, k, uuid), k, uuid)
  {
    NameLookupIsExact(w.staged, obj.spec.name);
    CallKeepsInv(w, k, Success(uuid));
    FromReconfiguring(Perform(w, k, Success(uuid)), k, uuid, obj, uuid);
  }

  lemma FromUpdating(w: World, k: Key, uuid: Uuid, obj: AliasObject, u: Uuid)
    requires Inv(w) && UpToDate(w, k, obj) && PcOf(w, k) == Updating(obj, u)
    requires Found(w, k) == Some(u) && Drifted(w, obj.spec, u)
    ensures Stepped(w, Complete(w, k, uuid), k, uuid)
  {
    CallKeepsInv(w, k, Success(uuid));
    var w1 := Perform(w, k, Success(uuid));
    if NameTaken(w.staged, obj.spec.name, {u}) {
      FromSaving(w1, k, uuid, obj);
    } else {
      FromReconfiguring(w1, k, uuid, obj, u);
    }
  }

  lemma FromResolved(w: World, k: Key, uuid: Uuid, obj: AliasObject, u: Uuid)
    requires Inv(w) && UpToDate(w, k, obj) && Found(w, k) == Some(u) && u in w.staged
    requires PcOf(w, k) == AfterResolve(obj, u, DecodeAlias(w.staged[u]))
    ensures Stepped(w, Complete(w, k, uuid), k, uuid)
  {
    var pc := PcOf(w, k);
    if pc.Updating? {
      FromUpdating(w, k, uuid, obj, u);
    } else if pc.SavingReady? {
      FromSaving(w, k, uuid, obj);
    } else {
      assert KeyGood(w, k);
    }
  }

  /** A successful call that only reads moves the program counter and nothing else. */
  lemma ReadStep(w: World, k: Key, uuid: Uuid) returns (w': World)
    requires Inv(w)
    requires var pc := PcOf(w, k); pc.Connecting? || pc.Reading? || pc.LookingUp? || pc.ReadingFound?
    ensures Inv(w') && PcOf(w', k) == PcAfter(w, k, Success(uuid)) && w'.store == w.store && SameBox(w, w')
    ensures Complete(w, k, uuid) == Complete(w', k, uuid)
  {
    w' := Perform(w, k, Success(uuid));
    CallKeepsInv(w, k, Success(uuid));
  }

  /** Reading first makes no difference to the big step. */
  lemma ReadThenStep(w: World, w1: World, w': World, k: Key, uuid: Uuid)
    requires k in w.store.objects && w1.store == w.store && SameBox(w, w1) && Stepped(w1, w', k, uuid)
    ensures Stepped(w, w', k, uuid)
  {
  }

  lemma FromLookingUp(w: World, k: Key, uuid: Uuid, obj: AliasObject)
    requires Inv(w) && UpToDate(w, k, obj) && (Found(w, k).None? ==> uuid != "" && uuid !in w.used)
    requires PcOf(w, k) == LookingUp(obj) && obj.status.uuid !in w.staged
    ensures Stepped(w, Complete(w, k, uuid), k, uuid)
  {
    NameLookupIsExact(w.staged, obj.spec.name);
    var w1 := ReadStep(w, k, uuid);
    match ByName(w.staged, obj.spec.name) {
      case None => FromCreating(w1, k, uuid, obj);
      case Some(u) =>
        var w2 := ReadStep(w1, k, uuid);
        FromResolved(w2, k, uuid, obj, u);
        ReadThenStep(w1, w2, Complete(w, k, uuid), k, uuid);
    }
    ReadThenStep(w, w1, Complete(w, k, uuid), k, uuid);
  }

  lemma FromReading(w: World, k: Key, uuid: Uuid, obj: AliasObject)
    requires Inv(w) && UpToDate(w, k, obj) && (Found(w, k).None? ==> uuid != "" && uuid !in w.used)
    requires PcOf(w, k) == Reading(obj)
    ensures Stepped(w, Complete(w, k, uuid), k, uuid)
  {
    var w1 := ReadStep(w, k, uuid);
    if obj.status.uuid in w.staged {
      FromResolved(w1, k, uuid, obj, obj.status.uuid);
    } else {
      FromLookingUp(w1, k, uuid, obj);
    }
    ReadThenStep(w, w1, Complete(w, k, uuid), k, uuid);
  }

  lemma FromConnecting(w: World, k: Key, uuid: Uuid, obj: AliasObject)
    requires Inv(w) && UpToDate(w, k, obj) && (Found(w, k).None? ==> uuid != "" && uuid !in w.used)
    requires PcOf(w, k) == Connecting(obj)
    ensures Stepped(w, Complete(w, k, uuid), k, uuid)
  {
    var w1 := ReadStep(w, k, uuid);
    if obj.status.uuid == "" {
      FromLookingUp(w1, k, uuid, obj);
    } else {
      FromReading(w1, k, uuid, obj);
    }
    ReadThenStep(w, w1, Complete(w, k, uuid), k, uuid);
  }

  /**
   One undisturbed reconcile is one big step: it creates, updates, is refused or only looks, by what it
   finds, and leaves every other alias, the spec and everything else of the resource alone.
   */
  lemma ReconciledIsBigStep(w: World, k: Key, uuid: Uuid)
    requires Inv(w) && HasFinalizer(w, k) && !w.store.objects[k].deleting && PcOf(w, k).Idle?
    requires Found(w, k).None? ==> uuid != "" && uuid !in w.used
    ensures Stepped(w, Reconciled(w, k, uuid), k, uuid)
  {
    var obj := w.store.objects[k];
    NextKeepsInv(w, Begin(k, true));
    var w1 := Next(w, Begin(k, true));
    FromConnecting(w1, k, uuid, obj);
    ReadThenStep(w, w1, Reconciled(w, k, uuid), k, uuid);
  }

  // ---- Names on the box ----

  /** An alias that is found by its name and shows no drift is the desired alias, name included. */
  lemma NoDriftByNameMeansEqual(staged: Config, spec: Spec, u: Uuid)
    requires UniqueNames(staged) && ByName(staged, spec.name) == Some(u)
    requires u in staged && !AliasNeedsUpdate(spec, DecodeAlias(staged[u]))
    ensures DecodeAlias(staged[u]) == SpecToAlias(spec)
  {
    NameLookupIsExact(staged, spec.name);
    NoDriftMeansEqualUpToName(spec, DecodeAlias(staged[u]));
  }

  lemma FoundIsStaged(w: World, k: Key)
    requires Inv(w) && k in w.store.objects
    ensures Found(w, k).Some? ==> Found(w, k).value in w.staged
  {
    NameLookupIsExact(w.staged, w.store.objects[k].spec.name);
  }

  // ---- What settles ----

  /** What keeps an update from removing the drift of `u`: another alias's name, or an old description that stays. */
  predicate Obstructed(w: World, spec: Spec, u: Uuid)
    requires u in w.staged
  {
    NameTaken(w.staged, spec.name, {u}) || (spec.description == "" && w.staged[u].description != "")
  }

  predicate CanSettle(w: World, k: Key)
    requires k in w.store.objects
  {
    var spec := w.store.objects[k].spec;
    var found := Found(w, k);
    found.Some? && Drifted(w, spec, found.value) ==> !Obstructed(w, spec, found.value)
  }

  /** The resource is free for one undisturbed reconcile, and `uuid` is fresh. */
  ghost predicate Free(w: World, k: Key, uuid: Uuid) {
    && HasFinalizer(w, k) && !w.store.objects[k].deleting && PcOf(w, k).Idle?
    && uuid != "" && uuid !in w.used
  }

  lemma StepSettlesIff(w: World, w': World, k: Key, uuid: Uuid)
    requires Inv(w) && HasFinalizer(w, k) && !w.store.objects[k].deleting && Stepped(w, w', k, uuid)
    ensures Settled(w', k) <==> CanSettle(w, k)
    ensures var spec, u := w.store.objects[k].spec, Found(w, k).GetOr(uuid);
            u in w'.staged && (Drifted(w', spec, u) <==> !CanSettle(w, k))
  {
    var spec := w.store.objects[k].spec;
    FoundIsStaged(w, k);
    match Found(w, k) {
      case None => CreateConverges(spec);
      case Some(u) => UpdateConvergesIff(spec, w.staged[u]);
    }
  }

  /**
   From every reachable state, whatever faults led to it, one undisturbed reconcile settles an alias if and
   only if the alias it finds shows no drift, or can be updated: its name is free and the spec overwrites
   the description or there is none to overwrite.
   */
  lemma OneReconcileSettles(w0: World, es: seq<Event>, k: Key, uuid: Uuid)
    requires Initial(w0) && Free(Run(w0, es), k, uuid)
    ensures Settled(Reconciled(Run(w0, es), k, uuid), k) <==> CanSettle(Run(w0, es), k)
  {
    ReachableInv(w0, es);
    ReconciledIsBigStep(Run(w0, es), k, uuid);
    StepSettlesIff(Run(w0, es), Reconciled(Run(w0, es), k, uuid), k, uuid);
  }

  /**
   Ready=True and the drift: from every reachable state, one undisturbed reconcile reports Ready=True exactly
   if the box did not refuse the update, and reports it in spite of drift that remains exactly if the
   spec's description is empty and the drifted alias that it found has one.
   */
  lemma ReadyIsReportedIff(w0: World, es: seq<Event>, k: Key, uuid: Uuid)
    requires Initial(w0) && Free(Run(w0, es), k, uuid)
    ensures
      var w, w' := Run(w0, es), Reconciled(Run(w0, es), k, uuid);
      var obj, found := w.store.objects[k], Found(w, k);
      var u := found.GetOr(uuid);
      && k in w'.store.objects && u in w'.staged
      && (w'.store.objects[k].status == ReadyStatus(obj, u) <==> !NameClash(w, k))
      && (w'.store.objects[k].status == ReadyStatus(obj, u) && Drifted(w', obj.spec, u) <==>
            && found.Some? && Drifted(w, obj.spec, u) && !NameTaken(w.staged, obj.spec.name, {u})
            && obj.spec.description == "" && w.staged[u].description != "")
  {
    ReachableInv(w0, es);
    FoundIsStaged(Run(w0, es), k);
    ReconciledIsBigStep(Run(w0, es), k, uuid);
    StepSettlesIff(Run(w0, es), Reconciled(Run(w0, es), k, uuid), k, uuid);
  }

  /**
   The name: from every reachable state, the alias that one undisturbed reconcile ends up with has the
   resource's alias name exactly if it was created, had the name already, or drifted in another field as
   well and the name is free. A new name alone is not noticed.
   */
  lemma NameFollowsIff(w0: World, es: seq<Event>, k: Key, uuid: Uuid)
    requires Initial(w0) && Free(Run(w0, es), k, uuid)
    ensures
      var w, w' := Run(w0, es), Reconciled(Run(w0, es), k, uuid);
      var spec, found := w.store.objects[k].spec, Found(w, k);
      var u := found.GetOr(uuid);
      && u in w'.staged
      && (w'.staged[u].name == spec.name <==>
            || found.None? || (u in w.staged && w.staged[u].name == spec.name)
            || (Drifted(w, spec, u) && !NameTaken(w.staged, spec.name, {u})))
  {
    ReachableInv(w0, es);
    FoundIsStaged(Run(w0, es), k);
    ReconciledIsBigStep(Run(w0, es), k, uuid);
  }

  /**
   Sharing: from every reachable state, an undisturbed reconcile of `j` ends up recording the staged alias `u`, which
   may be another resource's or an administrator's, exactly if `j` has recorded it, or if what `j` has recorded is
   not staged and `u` has on the box, whatever its own resource says, the name that `j` asks for. Other
   resources notice nothing.
   */
  lemma RecordsIff(w0: World, es: seq<Event>, j: Key, u: Uuid, uuid: Uuid)
    requires Initial(w0) && Free(Run(w0, es), j, uuid) && u in Run(w0, es).staged
    ensures
      var w, w' := Run(w0, es), Reconciled(Run(w0, es), j, uuid);
      var obj := w.store.objects[j];
      && u in w'.staged && j in w'.store.objects
      && (w'.store.objects[j].status.uuid == u <==>
            if obj.status.uuid in w.staged then obj.status.uuid == u else w.staged[u].name == obj.spec.name)
      && forall k | k != j && k in w.store.objects ::
           k in w'.store.objects && w'.store.objects[k] == w.store.objects[k]
  {
    var w := Run(w0, es);
    var obj := w.store.objects[j];
    ReachableInv(w0, es);
    ReconciledIsBigStep(w, j, uuid);
    NameLookupIsExact(w.staged, obj.spec.name);
    assert w.staged[u].name == obj.spec.name <==> u in Named(w.staged, obj.spec.name);
    forall k | k != j && k in w.store.objects
      ensures k in Reconciled(w, j, uuid).store.objects
      ensures Reconciled(w, j, uuid).store.objects[k] == w.store.objects[k]
    {
      CompleteLeavesOthers(w.(pcs := w.pcs[j := AfterGet(w.store, j)]), j, uuid, k);
    }
  }

  // ---- What never settles ----

  function Repeated(w: World, k: Key, uuid: Uuid, n: nat): World {
    if n == 0 then w else Reconciled(Repeated(w, k, uuid, n - 1), k, uuid)
  }

  lemma StuckStep(w: World, k: Key, uuid: Uuid)
    requires Inv(w) && Free(w, k, uuid) && !CanSettle(w, k)
    ensures
      var w' := Reconciled(w, k, uuid);
      && Inv(w') && Free(w', k, uuid) && !CanSettle(w', k) && !Settled(w', k)
      && Found(w', k) == Found(w, k) && w'.store.objects[k].spec == w.store.objects[k].spec
      && (NameClash(w', k) <==> NameClash(w, k)) && (ReadyTrue(w', k) <==> !NameClash(w, k))
  {
    var w' := Reconciled(w, k, uuid);
    var obj := w.store.objects[k];
    FoundIsStaged(w, k);
    ReconciledIsBigStep(w, k, uuid);
    StepSettlesIff(w, w', k, uuid);
    var es := ReconciledIsRun(w, k, uuid);
    RunKeepsInv(w, es);
    var u := Found(w, k).value;
    assert w'.staged.Keys == w.staged.Keys;
    assert Named(w'.staged, obj.spec.name) - {u} == Named(w.staged, obj.spec.name) - {u};
    if NameClash(w, k) {
      assert w'.staged == w.staged;
    }
  }

  /**
   What one undisturbed reconcile cannot settle, no number of them settles: after each, the same drift is
   there to be updated again. They all report Ready=True if it is the description that stays, and
   none does if the name is taken.
   */
  lemma {:induction false} StuckForever(w0: World, es: seq<Event>, k: Key, uuid: Uuid, n: nat)
    requires Initial(w0) && Free(Run(w0, es), k, uuid) && !CanSettle(Run(w0, es), k)
    ensures
      var w, w' := Run(w0, es), Repeated(Run(w0, es), k, uuid, n);
      && Inv(w') && Free(w', k, uuid) && Found(w', k) == Found(w, k)
      && !CanSettle(w', k) && (NameClash(w', k) <==> NameClash(w, k))
      && w'.store.objects[k].spec == w.store.objects[k].spec
      && Drifted(w', w.store.objects[k].spec, Found(w, k).GetOr(uuid))
      && (n > 0 ==> !Settled(w', k) && (ReadyTrue(w', k) <==> !NameClash(w, k)))
  {
    if n == 0 {
      ReachableInv(w0, es);
    } else {
      StuckForever(w0, es, k, uuid, n - 1);
      StuckStep(Repeated(Run(w0, es), k, uuid, n - 1), k, uuid);
    }
  }

  // ---- Rest and recovery ----

  /** A settled alias is a fixpoint: the next reconcile writes neither to the box nor to the store. */
  lemma SettledIsFixpoint(w: World, k: Key, uuid: Uuid)
    requires Inv(w) && Settled(w, k) && PcOf(w, k).Idle?
    ensures var w' := Reconciled(w, k, uuid);
            w'.staged == w.staged && w'.live == w.live && w'.store == w.store && w'.used == w.used
  {
    assert KeyGood(w, k);
    NextKeepsInv(w, Begin(k, true));
    var w1 := Next(w, Begin(k, true));
    var w2 := ReadStep(w1, k, uuid);
    var w3 := ReadStep(w2, k, uuid);
    assert PcOf(w3, k) == Idle;
  }

  /**
   An alias whose creation was never recorded is found again by its name: no second one is created, and
   the resource records the first one and settles, unless an old description stays.
   */
  lemma LostCreationIsAdopted(w0: World, es: seq<Event>, k: Key, u: Uuid, uuid: Uuid)
    requires Initial(w0) && Free(Run(w0, es), k, uuid)
    requires var w := Run(w0, es);
             && w.store.objects[k].status.uuid !in w.staged
             && u in w.staged && w.staged[u].name == w.store.objects[k].spec.name
    ensures
      var w, w' := Run(w0, es), Reconciled(Run(w0, es), k, uuid);
      var spec := w.store.objects[k].spec;
      && w'.staged.Keys == w.staged.Keys
      && k in w'.store.objects && w'.store.objects[k].status == ReadyStatus(w.store.objects[k], u)
      && (Settled(w', k) <==> (Drifted(w, spec, u) ==> spec.description != "" || w.staged[u].description == ""))
  {
    var w := Run(w0, es);
    ReachableInv(w0, es);
    FoundByName(w, k, u);
    ReconciledIsBigStep(w, k, uuid);
    StepSettlesIff(w, Reconciled(w, k, uuid), k, uuid);
  }

  lemma FoundByName(w: World, k: Key, u: Uuid)
    requires Inv(w) && k in w.store.objects && w.store.objects[k].status.uuid !in w.staged
    requires u in w.staged && w.staged[u].name == w.store.objects[k].spec.name
    ensures Found(w, k) == Some(u) && !NameTaken(w.staged, w.store.objects[k].spec.name, {u})
  {
    var name := w.store.objects[k].spec.name;
    NameLookupIsExact(w.staged, name);
    assert u in Named(w.staged, name);
  }

  /**
   A lost addItem reply is harmless: whether or not the failure could be recorded, the next undisturbed
   reconcile adopts the alias that was created unnoticed and settles, without another write to the staged aliases.
   */
  lemma LostReplyIsRecovered(w: World, k: Key, lost: Outcome, save: Outcome, uuid: Uuid)
    requires Inv(w) && PcOf(w, k).Creating? && UpToDate(w, k, PcOf(w, k).obj)
    requires Named(w.staged, PcOf(w, k).obj.spec.name) == {}
    requires lost.fate.FailedAfter? && Enabled(w, Call(k, lost)) && uuid != "" && uuid !in w.used && uuid != lost.uuid
    ensures
      var w1 := Next(w, Call(k, lost));
      var w2 := Next(w1, Call(k, save));
      var w' := Reconciled(w2, k, uuid);
      && PcOf(w2, k).Idle? && Settled(w', k) && w'.staged == w1.staged
      && w'.store.objects[k].status.uuid == lost.uuid && w'.staged.Keys == w.staged.Keys + {lost.uuid}
  {
    var obj := PcOf(w, k).obj;
    assert KeyGood(w, k);
    NextKeepsInv(w, Call(k, lost));
    var w1 := Next(w, Call(k, lost));
    LostReplyLeaves(w, k, lost);
    NextKeepsInv(w1, Call(k, save));
    FailureIsSaved(w1, k, save);
    UnrecordedIsAdopted(Next(w1, Call(k, save)), k, lost.uuid, uuid);
  }

  /** However the save of a failure ends, the reconcile is over and only the condition may have changed. */
  lemma FailureIsSaved(w: World, k: Key, save: Outcome)
    requires PcOf(w, k).SavingFailure? && UpToDate(w, k, PcOf(w, k).obj)
    ensures
      var obj := PcOf(w, k).obj;
      var w' := Next(w, Call(k, save));
      && PcOf(w', k).Idle? && w'.staged == w.staged && w'.used == w.used
      && UpToDate(w', k, w'.store.objects[k])
      && w'.store.objects[k].spec == obj.spec && w'.store.objects[k].status.uuid == obj.status.uuid
  {
  }

  /** An unrecorded alias that is exactly the desired one is adopted as it is. */
  lemma UnrecordedIsAdopted(w: World, k: Key, u: Uuid, uuid: Uuid)
    requires Inv(w) && Free(w, k, uuid) && w.store.objects[k].status.uuid !in w.staged
    requires u in w.staged && w.staged[u] == StoreNewAlias(EncodeAlias(SpecToAlias(w.store.objects[k].spec)))
    ensures
      var w' := Reconciled(w, k, uuid);
      Settled(w', k) && w'.store.objects[k].status.uuid == u && w'.staged == w.staged
  {
    CreateConverges(w.store.objects[k].spec);
    FoundByName(w, k, u);
    ReconciledIsBigStep(w, k, uuid);
    StepSettlesIff(w, Reconciled(w, k, uuid), k, uuid);
  }

  lemma LostReplyLeaves(w: World, k: Key, lost: Outcome)
    requires Inv(w) && PcOf(w, k).Creating? && lost.fate.FailedAfter? && Enabled(w, Call(k, lost))
    requires Named(w.staged, PcOf(w, k).obj.spec.name) == {}
    ensures
      var obj := PcOf(w, k).obj;
      var w1 := Next(w, Call(k, lost));
      && PcOf(w1, k) == SavingFailure(obj, "CreateFailed", lost.text) && w1.store == w.store
      && w1.staged == w.staged[lost.uuid := StoreNewAlias(EncodeAlias(SpecToAlias(obj.spec)))]
      && w1.used == w.used + {lost.uuid}
  {
  }

  /** A resource without its finalizer gets it in one reconcile, and nothing else happens. */
  lemma FinalizerFirst(w: World, k: Key, uuid: Uuid)
    requires Inv(w) && k in w.store.objects && !w.store.objects[k].deleting && !HasFinalizer(w, k)
    ensures
      var w' := Reconciled(w, k, uuid);
      && HasFinalizer(w', k) && !w'.store.objects[k].deleting && PcOf(w', k).Idle?
      && w'.store.objects[k].finalizers == w.store.objects[k].finalizers + {"firewall.opnsense.io/finalizer"}
      && w'.staged == w.staged && w'.live == w.live && w'.used == w.used
      && w'.store.objects[k].spec == w.store.objects[k].spec && w'.store.objects[k].status == w.store.objects[k].status
  {
    var w1 := w.(pcs := w.pcs[k := AfterGet(w.store, k)]);
    var w2 := Perform(w1, k, Success(uuid));
    assert Complete(w1, k, uuid) == Complete(w2, k, uuid) == w2;
  }

  // ---- Deletion ----

  /** An undisturbed deletion takes the recorded alias out of both configurations, whoever else relies on it. */
  lemma DeletionRemovesAlias(w: World, k: Key, uuid: Uuid)
    requires Inv(w) && HasFinalizer(w, k) && w.store.objects[k].deleting && PcOf(w, k).Idle?
    requires w.store.objects[k].status.uuid != ""
    ensures
      var w' := Reconciled(w, k, uuid);
      && !HasFinalizer(w', k) && w'.staged == w.staged - {w.store.objects[k].status.uuid} && w'.live == w'.staged
  {
    var obj := w.store.objects[k];
    NextKeepsInv(w, Begin(k, true));
    var w1 := ReadStep(Next(w, Begin(k, true)), k, uuid);
    FromDeletingAlias(w1, k, uuid, obj);
  }

  /** A resource that recorded nothing is deleted without a look at the box. */
  lemma DeletionWithoutRecord(w: World, k: Key, uuid: Uuid)
    requires Inv(w) && HasFinalizer(w, k) && w.store.objects[k].deleting && PcOf(w, k).Idle?
    requires w.store.objects[k].status.uuid == ""
    ensures
      var w' := Reconciled(w, k, uuid);
      !HasFinalizer(w', k) && w'.staged == w.staged && w'.live == w.live
  {
    var w1 := w.(pcs := w.pcs[k := AfterGet(w.store, k)]);
    var w2 := Perform(w1, k, Success(uuid));
    assert Complete(w1, k, uuid) == Complete(w2, k, uuid) == w2;
  }

  /**
   From every reachable state, an undisturbed deletion of `j` takes the staged alias that `k` has recorded away,
   without changing what `k` reports, exactly if `j` has recorded it too.
   */
  lemma DeletionHitsSharerIff(w0: World, es: seq<Event>, j: Key, k: Key, uuid: Uuid)
    requires Initial(w0) && j != k
    requires
      var w := Run(w0, es);
      && HasFinalizer(w, j) && w.store.objects[j].deleting && PcOf(w, j).Idle?
      && k in w.store.objects && w.store.objects[k].status.uuid in w.staged
    ensures
      var w, w' := Run(w0, es), Reconciled(Run(w0, es), j, uuid);
      var u := w.store.objects[k].status.uuid;
      && !HasFinalizer(w', j) && k in w'.store.objects && w'.store.objects[k] == w.store.objects[k]
      && (u !in w'.staged <==> w.store.objects[j].status.uuid == u)
      && (u !in w'.staged ==> u !in w'.live)
  {
    var w := Run(w0, es);
    ReachableInv(w0, es);
    if w.store.objects[j].status.uuid == "" {
      DeletionWithoutRecord(w, j, uuid);
    } else {
      DeletionRemovesAlias(w, j, uuid);
    }
    CompleteLeavesOthers(w.(pcs := w.pcs[j := AfterGet(w.store, j)]), j, uuid, k);
  }

  /** No alias of the configuration has this name. */
  predicate Nameless(config: Config, name: string) {
    forall v | v in config :: config[v].name != name
  }

  /**
   The exact conditions under which an undisturbed deletion leaves no alias with the resource's alias name behind.
   None is staged if only the recorded one could have had it. None is live either if, moreover, the status
   recorded any alias, as only then the box is told to reconfigure, or none was live before.
   */
  lemma DeletionLeavesNothingIff(w0: World, es: seq<Event>, k: Key, uuid: Uuid)
    requires Initial(w0)
    requires var w := Run(w0, es); HasFinalizer(w, k) && w.store.objects[k].deleting && PcOf(w, k).Idle?
    ensures
      var w, w' := Run(w0, es), Reconciled(Run(w0, es), k, uuid);
      var u, name := w.store.objects[k].status.uuid, w.store.objects[k].spec.name;
      && !HasFinalizer(w', k)
      && (Nameless(w'.staged, name) <==> Named(w.staged, name) <= {u})
      && (Nameless(w'.staged, name) && Nameless(w'.live, name) <==>
            Named(w.staged, name) <= {u} && (u != "" || Nameless(w.live, name)))
  {
    var w, w' := Run(w0, es), Reconciled(Run(w0, es), k, uuid);
    var u, name := w.store.objects[k].status.uuid, w.store.objects[k].spec.name;
    ReachableInv(w0, es);
    if u == "" {
      DeletionWithoutRecord(w, k, uuid);
    } else {
      DeletionRemovesAlias(w, k, uuid);
    }
    assert "" !in w.staged;
    assert w'.staged == w.staged - {u};
    assert forall v | v in w.staged && v != u ::
        v in w'.staged && (w'.staged[v].name == name <==> v in Named(w.staged, name));
  }

  lemma FromDeletingAlias(w: World, k: Key, uuid: Uuid, obj: AliasObject)
    requires Inv(w) && k in w.store.objects && w.store.objects[k] == obj && PcOf(w, k) == DeletingAlias(obj)
    ensures
      var w' := Complete(w, k, uuid);
      && !HasFinalizer(w', k) && w'.staged == w.staged - {obj.status.uuid} && w'.live == w'.staged
  {
    var o := Success(uuid);
    var w1 := Perform(w, k, o);
    FromReconfiguringDelete(w1, k, uuid, obj);
  }

  lemma FromReconfiguringDelete(w: World, k: Key, uuid: Uuid, obj: AliasObject)
    requires k in w.store.objects && w.store.objects[k] == obj && PcOf(w, k) == ReconfiguringDelete(obj)
    ensures
      var w' := Complete(w, k, uuid);
      !HasFinalizer(w', k) && w'.staged == w.staged && w'.live == w'.staged
  {
    var o := Success(uuid);
    var w1 := Perform(w, k, o);
    var w2 := Perform(w1, k, o);
    assert Complete(w, k, uuid) == Complete(w1, k, uuid) == Complete(w2, k, uuid) == w2;
  }
}
