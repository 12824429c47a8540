/**
 The alias client and reconciler, step by step as they run. As with rules, Reconcile is proved to be a run of
 the state machine with anything happening between its calls.
 */
module AliasReconciler {
  import opened Kube
  import opened Opnsense
  import opened Connection
  import opened Replies
  import opened AliasSpec
  import opened AliasMachine
  import opened AliasSafety
  import opened AliasReady
  import opened AliasCluster

  /** At some instant between the two histories the staged alias `u` carried what `spec` asks for. */
  ghost predicate AgreedBetween(start: World, before: seq<Event>, after: seq<Event>, spec: Spec, u: Uuid) {
    exists i | |before| <= i <= |after| :: InAgreement(Run(start, after[..i]), spec, u)
  }

  lemma AgreedNow(start: World, before: seq<Event>, middle: seq<Event>, after: seq<Event>, k: Key, spec: Spec, u: Uuid)
    requires |before| <= |middle| && Continues(middle, after, k) && InAgreement(Run(start, middle), spec, u)
    ensures AgreedBetween(start, before, after, spec, u)
  {
    assert after[..|middle|] == middle;
  }

  /** At some instant between the two histories the lookup of `name` found `u`. */
  ghost predicate LookedUpBetween(start: World, before: seq<Event>, after: seq<Event>, name: string, u: Uuid) {
    exists i | |before| <= i <= |after| :: ByName(Run(start, after[..i]).staged, name) == Some(u)
  }

  lemma LookedUpNow(
      start: World, before: seq<Event>, middle: seq<Event>, after: seq<Event>, k: Key, name: string, u: Uuid)
    requires |before| <= |middle| && Continues(middle, after, k) && ByName(Run(start, middle).staged, name) == Some(u)
    ensures LookedUpBetween(start, before, after, name, u)
  {
    assert after[..|middle|] == middle;
  }

  /** The status stored for `k` is the one of success with alias `u`, for the generation of the copy `obj`. */
  ghost predicate ReportsReady(w: World, k: Key, obj: AliasObject, u: Uuid) {
    k in w.store.objects && w.store.objects[k].status == ReadyStatus(obj, u)
  }

  /** The client that one reconcile uses. */
  class Client {
    const cluster: Cluster
    const key: Key

    constructor (cluster: Cluster, key: Key)
      ensures this.cluster == cluster && this.key == key
    {
      this.cluster, this.key := cluster, key;
    }

    method GetAliasUUIDByName(name: string) returns (r: Result<Uuid>)
      requires cluster.Valid() && Initial(cluster.start)
      requires PcOf(cluster.world, key).LookingUp? && name == PcOf(cluster.world, key).obj.spec.name
      modifies cluster
      ensures cluster.Stepped(key)
      ensures
        var obj := old(PcOf(cluster.world, key)).obj;
        match r
        case Ok(uuid) =>
          PcOf(cluster.world, key) == ReadingFound(obj, uuid) && ByName(cluster.world.staged, name) == Some(uuid)
        case Err(NotFound(_)) =>
          PcOf(cluster.world, key) == Creating(obj) && ByName(cluster.world.staged, name) == None
        case Err(error) => PcOf(cluster.world, key) == SavingFailure(obj, "LookupFailed", error.text)
    {
      var reply := cluster.AliasUuid(key, name);
      if reply.Failed? {
        return Err(Other(reply.text));
      }
      if reply.body.None? {
        return Err(NotFound(reply.text));
      }
      if reply.body.value == "" {
        return Err(Other(reply.text));
      }
      return Ok(reply.body.value);
    }

    /** An answer is what the box has staged at that moment; one without name or type is not accepted. */
    method GetAlias(uuid: Uuid) returns (r: Result<Alias>)
      requires cluster.Valid()
      requires
        var pc := PcOf(cluster.world, key);
        (pc.Reading? && uuid == pc.obj.status.uuid) || (pc.ReadingFound? && uuid == pc.uuid)
      modifies cluster
      ensures cluster.Stepped(key) && cluster.Succeeded() && cluster.LastRead(key, old(PcOf(cluster.world, key)))
      ensures r.Ok? ==> uuid in cluster.world.staged && r.value == DecodeAlias(cluster.world.staged[uuid])
      ensures r.Ok? ==> r.value.name != "" && r.value.kind != ""
      ensures r.Err? && r.error.NotFound? ==> uuid !in cluster.world.staged
      ensures
        var pc := old(PcOf(cluster.world, key));
        match r
        case Ok(alias) => PcOf(cluster.world, key) == AfterResolve(pc.obj, uuid, alias)
        case Err(error) =>
          PcOf(cluster.world, key) ==
            if error.NotFound? && pc.Reading? then LookingUp(pc.obj)
            else SavingFailure(pc.obj, "LookupFailed", error.text)
    {
      var reply := cluster.Export(key, uuid);
      if reply.Failed? {
        return Err(Other(reply.text));
      }
      match reply.body {
        case NoAlias => return Err(NotFound(reply.text));
        case Unexpected => return Err(Other(reply.text));
        case Exported(s) =>
          if s.name == "" {
            return Err(Other(reply.text));
          }
          if s.kind == "" {
            return Err(Other(reply.text));
          }
          return Ok(DecodeAlias(s));
      }
    }

    method CreateAlias(alias: Alias) returns (r: Result<Uuid>)
      requires cluster.Valid() && PcOf(cluster.world, key).Creating?
      requires alias == SpecToAlias(PcOf(cluster.world, key).obj.spec)
      modifies cluster
      ensures cluster.Stepped(key)
      ensures
        var obj := old(PcOf(cluster.world, key)).obj;
        match r
        case Ok(uuid) =>
          PcOf(cluster.world, key) == Reconfiguring(obj, uuid) &&
          uuid in cluster.world.staged && DecodeAlias(cluster.world.staged[uuid]) == SpecToAlias(obj.spec)
        case Err(ValidationFailed(text)) => PcOf(cluster.world, key) == SavingFailure(obj, "ValidationFailed", text)
        case Err(error) => PcOf(cluster.world, key) == SavingFailure(obj, "CreateFailed", error.text)
    {
      var reply := cluster.AddItem(key, EncodeAlias(alias));
      if reply.Failed? {
        return Err(Other(reply.text));
      }
      var failure := ResultError(reply.body, "saved", reply.text);
      if failure.Some? {
        return Err(failure.value);
      }
      if reply.body.uuid == "" {
        return Err(Other(reply.text));
      }
      return Ok(reply.body.uuid);
    }

    method UpdateAlias(uuid: Uuid, alias: Alias) returns (r: Result<()>)
      requires cluster.Valid() && PcOf(cluster.world, key).Updating? && uuid == PcOf(cluster.world, key).uuid
      requires alias == SpecToAlias(PcOf(cluster.world, key).obj.spec)
      modifies cluster
      ensures cluster.Stepped(key)
      ensures
        var obj := old(PcOf(cluster.world, key)).obj;
        match r
        case Ok(_) =>
          PcOf(cluster.world, key) == Reconfiguring(obj, uuid) &&
          InAgreement(cluster.world, obj.spec, uuid) && cluster.world.staged[uuid].name == obj.spec.name
        case Err(ValidationFailed(text)) => PcOf(cluster.world, key) == SavingFailure(obj, "ValidationFailed", text)
        case Err(error) => PcOf(cluster.world, key) == SavingFailure(obj, "UpdateFailed", error.text)
      ensures r.Err? && r.error.NotFound? <==> cluster.ToldUnknown(uuid)
    {
      var reply := cluster.SetItem(key, uuid, EncodeAlias(alias));
      if reply.Failed? {
        return Err(Other(reply.text));
      }
      if reply.body.result == "failed" && reply.body.validations == map[] {
        return Err(NotFound(reply.text));
      }
      var failure := ResultError(reply.body, "saved", reply.text);
      if failure.Some? {
        return Err(failure.value);
      }
      return Ok(());
    }

    method DeleteAlias(uuid: Uuid) returns (r: Result<()>)
      requires cluster.Valid() && PcOf(cluster.world, key).DeletingAlias?
      requires uuid == PcOf(cluster.world, key).obj.status.uuid
      modifies cluster
      ensures cluster.Stepped(key)
      ensures
        var obj := old(PcOf(cluster.world, key)).obj;
        if r.Ok? || r.error.NotFound?
        then PcOf(cluster.world, key) == ReconfiguringDelete(obj) && uuid !in cluster.world.staged
        else PcOf(cluster.world, key) == SavingFailure(obj, "DeleteFailed", r.error.text)
    {
      var reply := cluster.DelItem(key, uuid);
      if reply.Failed? {
        return Err(Other(reply.text));
      }
      if reply.body.result == "not found" {
        return Err(NotFound(reply.text));
      }
      var failure := ResultError(reply.body, "deleted", reply.text);
      if failure.Some? {
        return Err(failure.value);
      }
      return Ok(());
    }

    method ReconfigureAliases() returns (r: Result<()>)
      requires cluster.Valid()
      requires PcOf(cluster.world, key).Reconfiguring? || PcOf(cluster.world, key).ReconfiguringDelete?
      modifies cluster
      ensures cluster.Stepped(key)
      ensures
        var pc := old(PcOf(cluster.world, key));
        if r.Ok? then
          && cluster.world.live == cluster.world.staged
          && PcOf(cluster.world, key) ==
               if pc.Reconfiguring? then SavingReady(pc.obj, pc.uuid) else RemovingFinalizer(pc.obj)
        else PcOf(cluster.world, key) == SavingFailure(pc.obj, "ReconfigureFailed", r.error.text)
    {
      var reply := cluster.Reconfigure(key);
      if reply.Failed? || reply.body != "ok" {
        return Err(Other(reply.text));
      }
      return Ok(());
    }
  }

  /** The reconciler's in-memory copy of a resource. */
  class AliasCopy {
    const key: Key
    const spec: Spec
    const generation: nat
    const deleting: bool
    const version: nat
    var finalizers: set<string>
    var uuid: Uuid
    var observedGeneration: nat
    var ready: Option<Condition>

    constructor (key: Key, obj: AliasObject)
      ensures Value() == obj && this.key == key
    {
      this.key := key;
      spec, generation, deleting, version, finalizers :=
        obj.spec, obj.generation, obj.deleting, obj.version, obj.finalizers;
      uuid, observedGeneration, ready := obj.status.uuid, obj.status.observedGeneration, obj.status.ready;
    }

    function Value(): AliasObject
      reads this
    {
      Object(spec, Status(uuid, observedGeneration, ready), generation, deleting, finalizers, version)
    }
  }

  /** What resolveExternalAlias returns. */
  datatype Resolution = Absent | Present(uuid: Uuid, existing: Alias) | Unresolved(text: string)

  /** What a resolution says of the world it is returned in, and where it leaves the reconcile. */
  ghost predicate Resolved(r: Resolution, w: World, k: Key, obj: AliasObject) {
    match r
    case Present(u, existing) =>
      u in w.staged && existing == DecodeAlias(w.staged[u]) && PcOf(w, k) == AfterResolve(obj, u, existing)
    case Absent =>
      && Named(w.staged, obj.spec.name) == {} && obj.status.uuid !in w.staged
      && PcOf(w, k) == Creating(obj)
    case Unresolved(text) => PcOf(w, k) == SavingFailure(obj, "LookupFailed", text)
  }

  lemma AbsentMeansUnstaged(w0: World, es: seq<Event>, k: Key, name: string)
    requires Initial(w0) && PcOf(Run(w0, es), k).Creating? && ByName(Run(w0, es).staged, name) == None
    ensures PcOf(Run(w0, es), k).obj.status.uuid !in Run(w0, es).staged && Named(Run(w0, es).staged, name) == {}
  {
    ReachableInv(w0, es);
    assert KeyGood(Run(w0, es), k);
    NameLookupIsExact(Run(w0, es).staged, name);
  }

  /** The store still has the status that the copy was read with, and Ready=True in it is what success writes. */
  ghost predicate StatusKept(w: World, k: Key, obj: AliasObject) {
    k in w.store.objects && w.store.objects[k].status == obj.status && ReadyIsCanonical(obj.status)
  }

  lemma LastReadKeepsStatus(cluster: Cluster, pc: Pc, k: Key)
    requires Initial(cluster.start) && (pc.Reading? || pc.ReadingFound?) && cluster.LastRead(k, pc)
    ensures StatusKept(cluster.world, k, pc.obj)
  {
    var earlier := cluster.trace[..|cluster.trace| - 1];
    ReachableInv(cluster.start, earlier);
    assert KeyGood(Run(cluster.start, earlier), k);
  }

  /**
   What a reconcile without an error has achieved, by the resource that its Get read after `i` events. A new
   resource has its finalizer. A deletion has dropped it, and a recorded alias is out of both configurations.
   Otherwise the resource is reported as ready, for that generation, with an alias that has carried its spec.
   */
  ghost predicate Achieves(start: World, after: seq<Event>, i: nat, k: Key)
    requires i <= |after|
  {
    var objects, now := Run(start, after[..i]).store.objects, Run(start, after);
    k in objects ==>
      var obj := objects[k];
      if obj.deleting then
        FINALIZER in obj.finalizers ==>
          !HasFinalizer(now, k) && (obj.status.uuid != "" ==> Gone(now, obj.status.uuid))
      else if FINALIZER !in obj.finalizers then HasFinalizer(now, k)
      else exists u :: ReportsReady(now, k, obj, u) && AgreedBetween(start, after[..i], after, obj.spec, u)
  }

  /** The store reports success with `u` for the copy `obj`, and `u` has carried its spec since `before`. */
  ghost predicate SettlesOn(cluster: Cluster, before: seq<Event>, k: Key, obj: AliasObject, u: Uuid)
    reads cluster
  {
    && ReportsReady(cluster.world, k, obj, u)
    && AgreedBetween(cluster.start, before, cluster.trace, obj.spec, u)
  }

  /** The history from `before` to `after` holds one reconcile of `k`, started by event `i`. */
  ghost predicate OneReconcile(before: seq<Event>, after: seq<Event>, i: nat, k: Key) {
    && |before| <= i < |after| && after[..|before|] == before
    && after[i].Begin? && after[i].key == k
    && (forall j | |before| <= j < i :: !ByOwn(after[j], k))
    && Continues(after[..i + 1], after, k)
  }

  lemma StartedOnce(before: seq<Event>, started: seq<Event>, after: seq<Event>, k: Key)
    requires |before| < |started| && started[..|before|] == before
    requires started[|started| - 1].Begin? && started[|started| - 1].key == k
    requires forall j | |before| <= j < |started| - 1 :: !ByOwn(started[j], k)
    requires Continues(started, after, k)
    ensures OneReconcile(before, after, |started| - 1, k)
  {
    assert after[..|started|] == started;
    assert forall j | 0 <= j < |started| :: after[j] == started[j];
    assert after[..|before|] == before;
  }

  class AliasReconciler {
    const cluster: Cluster

    constructor (cluster: Cluster)
      ensures this.cluster == cluster
    {
      this.cluster := cluster;
    }

    method SetReadyCondition(alias: AliasCopy, ok: bool, reason: string, message: string) returns (saved: bool)
      requires cluster.Valid()
      requires
        var pc := PcOf(cluster.world, alias.key);
        var copy := alias.Value();
        var written := copy.(status := copy.status.(ready := Some(Condition(ok, reason, message, copy.generation))));
        || (pc.SavingReady? && written == pc.obj.(status := ReadyStatus(pc.obj, pc.uuid)))
        || (pc.SavingFailure? && written == pc.obj.(status := FailedStatus(pc.obj, pc.reason, pc.message)))
      modifies cluster, alias
      ensures cluster.Stepped(alias.key) && PcOf(cluster.world, alias.key).Idle?
      ensures cluster.Succeeded() == (saved && old(PcOf(cluster.world, alias.key)).SavingReady?)
      ensures
        var copy := old(alias.Value());
        alias.Value() == copy.(status := copy.status.(ready := Some(Condition(ok, reason, message, copy.generation))))
      ensures cluster.Wrote(alias.key, alias.Value()) && (saved ==> cluster.Stored(alias.key, alias.Value().status))
    {
      alias.ready := Some(Condition(ok, reason, message, alias.generation));
      saved := cluster.UpdateStatus(alias.key, alias.Value());
    }

    method SetReadyFailed(alias: AliasCopy, reason: string, message: string)
      requires cluster.Valid() && PcOf(cluster.world, alias.key) == SavingFailure(alias.Value(), reason, message)
      modifies cluster, alias
      ensures cluster.Stepped(alias.key) && PcOf(cluster.world, alias.key).Idle?
      ensures !cluster.Succeeded() && cluster.Wrote(alias.key, alias.Value())
      ensures alias.Value() == old(alias.Value()).(status := FailedStatus(old(alias.Value()), reason, message))
      ensures alias.ready == Some(Condition(false, reason, message, alias.generation))
      ensures
        && alias.uuid == old(alias.uuid) && alias.observedGeneration == old(alias.observedGeneration)
        && alias.finalizers == old(alias.finalizers)
    {
      var _ := SetReadyCondition(alias, false, reason, message);
    }

    method SetReadySuccess(alias: AliasCopy, uuid: Uuid) returns (saved: bool)
      requires cluster.Valid() && PcOf(cluster.world, alias.key) == SavingReady(alias.Value(), uuid)
      modifies cluster, alias
      ensures cluster.Stepped(alias.key) && PcOf(cluster.world, alias.key).Idle?
      ensures saved == cluster.Succeeded() && cluster.Wrote(alias.key, alias.Value())
      ensures alias.Value() == old(alias.Value()).(status := ReadyStatus(old(alias.Value()), uuid))
      ensures alias.uuid == uuid && alias.observedGeneration == alias.generation
      ensures
        alias.ready == Some(Condition(true, "AliasReady", "Alias is in sync with OPNsense", alias.generation))
      ensures saved ==> ReportsReady(cluster.world, alias.key, old(alias.Value()), uuid)
    {
      alias.uuid := uuid;
      alias.observedGeneration := alias.generation;
      saved := SetReadyCondition(alias, true, READY_REASON, READY_MESSAGE);
    }

    /** A client, or the reason for the first check that failed. */
    method BuildOPNsenseClient(alias: AliasCopy) returns (client: Client?, reason: string, text: string)
      requires cluster.Valid() && PcOf(cluster.world, alias.key) == Connecting(alias.Value())
      modifies cluster
      ensures cluster.Stepped(alias.key) && alias.Value() == old(alias.Value())
      ensures client != null ==> fresh(client) && client.cluster == cluster && client.key == alias.key
      ensures client != null <==> Usable(old(cluster.Upcoming()).setup)
      ensures client == null ==> Explains(reason, old(cluster.Upcoming()).setup)
      ensures
        PcOf(cluster.world, alias.key) ==
          if client == null then SavingFailure(alias.Value(), reason, text)
          else if alias.deleting then DeletingAlias(alias.Value())
          else if alias.uuid != "" then Reading(alias.Value())
          else LookingUp(alias.Value())
    {
      var ok;
      ok, reason, text := cluster.Connect(alias.key);
      if ok {
        client := new Client(cluster, alias.key);
      } else {
        client := null;
      }
    }

    /**
     An alias is returned with the state it has at that moment, and it is the recorded one or the one that the
     lookup of the name found; "absent" means that the recorded alias is not staged and no alias has the name.
     */
    method ResolveExternalAlias(client: Client, alias: AliasCopy) returns (r: Resolution)
      requires cluster.Valid() && Initial(cluster.start) && client.cluster == cluster && client.key == alias.key
      requires
        PcOf(cluster.world, alias.key) ==
          if alias.uuid != "" then Reading(alias.Value()) else LookingUp(alias.Value())
      modifies cluster
      ensures cluster.Stepped(alias.key) && alias.Value() == old(alias.Value())
      ensures Resolved(r, cluster.world, alias.key, alias.Value())
      ensures r.Present? ==>
                || r.uuid == alias.uuid
                || LookedUpBetween(cluster.start, old(cluster.trace), cluster.trace, alias.spec.name, r.uuid)
      ensures r.Present? ==> cluster.Succeeded() && StatusKept(cluster.world, alias.key, alias.Value())
    {
      ghost var t0 := cluster.trace;
      if alias.uuid != "" {
        var got := client.GetAlias(alias.uuid);
        LastReadKeepsStatus(cluster, Reading(alias.Value()), alias.key);
        if got.Ok? {
          return Present(alias.uuid, got.value);
        }
        if !got.error.NotFound? {
          return Unresolved(got.error.text);
        }
      }

      ghost var t1 := cluster.trace;
      var found := client.GetAliasUUIDByName(alias.spec.name);
      ghost var t2 := cluster.trace;
      ContinuesTransitive(t0, t1, t2, alias.key);
      if found.Err? {
        if found.error.NotFound? {
          AbsentMeansUnstaged(cluster.start, cluster.trace, alias.key, alias.spec.name);
          return Absent;
        }
        return Unresolved(found.error.text);
      }

      var got := client.GetAlias(found.value);
      LastReadKeepsStatus(cluster, ReadingFound(alias.Value(), found.value), alias.key);
      LookedUpNow(cluster.start, t0, t2, cluster.trace, alias.key, alias.spec.name, found.value);
      ContinuesTransitive(t0, t2, cluster.trace, alias.key);
      if got.Err? {
        return Unresolved(got.error.text);
      }
      return Present(found.value, got.value);
    }

    /** The deletion branch of Reconcile. */
    method ReconcileDelete(alias: AliasCopy) returns (ok: bool)
      requires cluster.Valid() && Initial(cluster.start) && alias.deleting
      requires
        PcOf(cluster.world, alias.key) ==
          if FINALIZER !in alias.finalizers then Idle
          else if alias.uuid == "" then RemovingFinalizer(alias.Value())
          else Connecting(alias.Value())
      requires FINALIZER !in alias.finalizers ==> cluster.Succeeded()
      modifies cluster, alias
      ensures cluster.Stepped(alias.key) && PcOf(cluster.world, alias.key).Idle?
      ensures ok && old(FINALIZER in alias.finalizers) ==> !HasFinalizer(cluster.world, alias.key)
      ensures ok && old(FINALIZER in alias.finalizers) && old(alias.uuid) != "" ==> Gone(cluster.world, old(alias.uuid))
      ensures ok == cluster.Succeeded()
    {
      if FINALIZER !in alias.finalizers {
        return true;
      }

      if alias.uuid == "" {
        alias.finalizers := alias.finalizers - {FINALIZER};
        ok := cluster.Update(alias.key, alias.Value());
        return;
      }

      ghost var t0 := cluster.trace;
      var client, reason, text := BuildOPNsenseClient(alias);
      ghost var t1 := cluster.trace;
      if client == null {
        SetReadyFailed(alias, reason, text);
        ContinuesTransitive(t0, t1, cluster.trace, alias.key);
        return false;
      }
      var deleted := client.DeleteAlias(alias.uuid);
      ghost var t2 := cluster.trace;
      ContinuesTransitive(t0, t1, t2, alias.key);
      if deleted.Err? && !deleted.error.NotFound? {
        SetReadyFailed(alias, "DeleteFailed", deleted.error.text);
        ContinuesTransitive(t0, t2, cluster.trace, alias.key);
        return false;
      }
      var reconfigured := client.ReconfigureAliases();
      ghost var t3 := cluster.trace;
      ContinuesTransitive(t0, t2, t3, alias.key);
      if reconfigured.Err? {
        SetReadyFailed(alias, "ReconfigureFailed", reconfigured.error.text);
        ContinuesTransitive(t0, t3, cluster.trace, alias.key);
        return false;
      }
      ok := RemoveFinalizer(alias);
      ContinuesTransitive(t0, t3, cluster.trace, alias.key);
    }

    /** The last step of a deletion, with the alias out of both configurations. */
    method RemoveFinalizer(alias: AliasCopy) returns (ok: bool)
      requires cluster.Valid() && Initial(cluster.start) && alias.uuid != ""
      requires PcOf(cluster.world, alias.key) == RemovingFinalizer(alias.Value())
      modifies cluster, alias`finalizers
      ensures cluster.Stepped(alias.key) && PcOf(cluster.world, alias.key).Idle?
      ensures Gone(cluster.world, old(alias.uuid)) && (ok ==> !HasFinalizer(cluster.world, alias.key))
      ensures ok == cluster.Succeeded()
    {
      ghost var earlier := cluster.trace;
      ReachableInv(cluster.start, earlier);
      assert KeyGood(cluster.world, alias.key);
      alias.finalizers := alias.finalizers - {FINALIZER};
      ok := cluster.Update(alias.key, alias.Value());
      ghost var later := cluster.trace[|earlier|..];
      assert cluster.trace == earlier + later;
      RunConcat(cluster.start, earlier, later);
      GoneForever(Run(cluster.start, earlier), later, alias.uuid);
    }

    method CreateExternalAlias(client: Client, alias: AliasCopy) returns (ok: bool)
      requires cluster.Valid() && client.cluster == cluster && client.key == alias.key
      requires PcOf(cluster.world, alias.key) == Creating(alias.Value())
      modifies cluster, alias
      ensures cluster.Stepped(alias.key) && PcOf(cluster.world, alias.key).Idle?
      ensures ok ==> SettlesOn(cluster, old(cluster.trace), alias.key, old(alias.Value()), alias.uuid)
      ensures ok == cluster.Succeeded()
    {
      ghost var t0 := cluster.trace;
      var created := client.CreateAlias(SpecToAlias(alias.spec));
      ghost var t1 := cluster.trace;
      if created.Err? {
        var reason := "CreateFailed";
        if created.error.ValidationFailed? {
          reason := "ValidationFailed";
        }
        SetReadyFailed(alias, reason, created.error.text);
        ok := false;
      } else {
        NoDriftIff(alias.spec, cluster.world.staged[created.value]);
        ok := ReconfigureAndRecord(client, alias, created.value);
        AgreedNow(cluster.start, t0, t1, cluster.trace, alias.key, alias.spec, created.value);
      }
      ContinuesTransitive(t0, t1, cluster.trace, alias.key);
    }

    method UpdateExternalAlias(client: Client, alias: AliasCopy, uuid: Uuid) returns (ok: bool)
      requires cluster.Valid() && client.cluster == cluster && client.key == alias.key
      requires PcOf(cluster.world, alias.key) == Updating(alias.Value(), uuid)
      modifies cluster, alias
      ensures cluster.Stepped(alias.key) && PcOf(cluster.world, alias.key).Idle?
      ensures ok ==> SettlesOn(cluster, old(cluster.trace), alias.key, old(alias.Value()), alias.uuid)
      ensures ok == cluster.Succeeded()
    {
      ghost var t0 := cluster.trace;
      var updated := client.UpdateAlias(uuid, SpecToAlias(alias.spec));
      ghost var t1 := cluster.trace;
      if updated.Err? {
        var reason := "UpdateFailed";
        if updated.error.ValidationFailed? {
          reason := "ValidationFailed";
        }
        SetReadyFailed(alias, reason, updated.error.text);
        ok := false;
      } else {
        ok := ReconfigureAndRecord(client, alias, uuid);
        AgreedNow(cluster.start, t0, t1, cluster.trace, alias.key, alias.spec, uuid);
      }
      ContinuesTransitive(t0, t1, cluster.trace, alias.key);
    }

    /** What both write paths end with. */
    method ReconfigureAndRecord(client: Client, alias: AliasCopy, uuid: Uuid) returns (ok: bool)
      requires cluster.Valid() && client.cluster == cluster && client.key == alias.key
      requires PcOf(cluster.world, alias.key) == Reconfiguring(alias.Value(), uuid)
      modifies cluster, alias
      ensures cluster.Stepped(alias.key) && PcOf(cluster.world, alias.key).Idle?
      ensures ok == cluster.Succeeded()
      ensures ok ==> alias.uuid == uuid && ReportsReady(cluster.world, alias.key, old(alias.Value()), uuid)
    {
      ghost var t0 := cluster.trace;
      var reconfigured := client.ReconfigureAliases();
      ghost var t1 := cluster.trace;
      if reconfigured.Err? {
        SetReadyFailed(alias, "ReconfigureFailed", reconfigured.error.text);
        ok := false;
      } else {
        ok := SetReadySuccess(alias, uuid);
      }
      ContinuesTransitive(t0, t1, cluster.trace, alias.key);
    }

    /** What a reconcile without drift ends with: the status is written unless it says all that already. */
    method RecordExisting(alias: AliasCopy, uuid: Uuid) returns (ok: bool)
      requires cluster.Valid() && cluster.Succeeded() && StatusKept(cluster.world, alias.key, alias.Value())
      requires
        PcOf(cluster.world, alias.key) ==
          if ReflectsCurrent(alias.Value(), uuid) then Idle else SavingReady(alias.Value(), uuid)
      modifies cluster, alias
      ensures cluster.Stepped(alias.key) && PcOf(cluster.world, alias.key).Idle?
      ensures ok == cluster.Succeeded()
      ensures ok ==> alias.uuid == uuid && ReportsReady(cluster.world, alias.key, old(alias.Value()), uuid)
    {
      if alias.uuid == uuid && alias.observedGeneration == alias.generation &&
         alias.ready.Some? && alias.ready.value.ok {
        return true;
      }
      ok := SetReadySuccess(alias, uuid);
    }

    /** The part of Reconcile that follows the checks for deletion and finalizer. */
    method ReconcileExternalAlias(alias: AliasCopy) returns (ok: bool)
      requires cluster.Valid() && Initial(cluster.start) && !alias.deleting
      requires PcOf(cluster.world, alias.key) == Connecting(alias.Value())
      modifies cluster, alias
      ensures cluster.Stepped(alias.key) && PcOf(cluster.world, alias.key).Idle?
      ensures ok ==> SettlesOn(cluster, old(cluster.trace), alias.key, old(alias.Value()), alias.uuid)
      ensures ok == cluster.Succeeded()
    {
      ghost var t0 := cluster.trace;
      var client, reason, text := BuildOPNsenseClient(alias);
      ghost var t1 := cluster.trace;
      if client == null {
        SetReadyFailed(alias, reason, text);
        ContinuesTransitive(t0, t1, cluster.trace, alias.key);
        return false;
      }

      var resolution := ResolveExternalAlias(client, alias);
      ghost var t2 := cluster.trace;
      ContinuesTransitive(t0, t1, t2, alias.key);
      match resolution {
        case Unresolved(message) =>
          SetReadyFailed(alias, "LookupFailed", message);
          ok := false;
        case Absent =>
          ok := CreateExternalAlias(client, alias);
        case Present(uuid, existing) =>
          WrittenCarries(alias.spec, cluster.world.staged[uuid]);
          if AliasNeedsUpdate(alias.spec, existing) {
            ok := UpdateExternalAlias(client, alias, uuid);
          } else {
            ok := RecordExisting(alias, uuid);
            AgreedNow(cluster.start, t0, t2, cluster.trace, alias.key, alias.spec, uuid);
          }
      }
      ContinuesTransitive(t0, t2, cluster.trace, alias.key);
    }

    /**
     One reconcile of `k` is one reconcile of the state machine: the history it adds is a run in which `k`
     starts once, makes calls only, and ends idle, while everybody else acts in between as they please.
     It ends with an error exactly if its last event does; without one it has done what the resource that it
     read asks for.
     */
    method Reconcile(k: Key) returns (ok: bool)
      requires cluster.Valid() && Initial(cluster.start) && PcOf(cluster.world, k).Idle?
      modifies cluster
      ensures cluster.Valid() && cluster.start == old(cluster.start) && PcOf(cluster.world, k).Idle?
      ensures exists i ::
                && 0 <= i <= |cluster.trace| && OneReconcile(old(cluster.trace), cluster.trace, i, k)
                && (ok ==> Achieves(cluster.start, cluster.trace, i, k))
      ensures ok == cluster.Succeeded()
    {
      ghost var before := cluster.trace;
      var found, got := cluster.Get(k);
      ghost var started := cluster.trace;
      ghost var i := |started| - 1;
      assert started[..|started|] == started;
      if !got || found.None? {
        StartedOnce(before, started, cluster.trace, k);
        assert OneReconcile(before, cluster.trace, i, k) && (got ==> Achieves(cluster.start, cluster.trace, i, k));
        return got;
      }
      var alias := new AliasCopy(k, found.value);

      if alias.deleting {
        ok := ReconcileDelete(alias);
      } else if FINALIZER !in alias.finalizers {
        alias.finalizers := alias.finalizers + {FINALIZER};
        ok := cluster.Update(k, alias.Value());
      } else {
        ok := ReconcileExternalAlias(alias);
      }
      StartedOnce(before, started, cluster.trace, k);
      assert cluster.trace[..i] == started[..i];
      assert OneReconcile(before, cluster.trace, i, k) && (ok ==> Achieves(cluster.start, cluster.trace, i, k));
    }
  }
}
