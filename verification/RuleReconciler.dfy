/**
 The OPNsense client and the FirewallRule reconciler, step by step as they run. Reconcile is proved to be a
 run of the state machine, so every theorem about runs holds of it, with anything happening between its calls.
 */
module RuleReconciler {
  import opened Text
  import opened Kube
  import opened Opnsense
  import opened Connection
  import opened Replies
  import opened RuleSpec
  import opened RuleDrift
  import opened RuleMachine
  import opened RuleSafety
  import opened RuleTheorems
  import opened RuleReady
  import opened RuleCluster

  /** At some instant between the two histories the staged rule `u` carried every managed field that `spec` asks for. */
  ghost predicate AgreedBetween(
      start: World, before: seq<Event>, after: seq<Event>, k: Key, spec: Spec, u: Uuid) {
    exists i | |before| <= i <= |after| :: InAgreement(Run(start, after[..i]), k, spec, u)
  }

  lemma AgreedNow(start: World, before: seq<Event>, middle: seq<Event>, after: seq<Event>, k: Key, spec: Spec, u: Uuid)
    requires |before| <= |middle| && Continues(middle, after, k) && InAgreement(Run(start, middle), k, spec, u)
    ensures AgreedBetween(start, before, after, k, spec, u)
  {
    assert after[..|middle|] == middle;
  }

  /** The status stored for `k` is the one of success with rule `u`, for the generation of the copy `obj`. */
  ghost predicate ReportsReady(w: World, k: Key, obj: RuleObject, u: Uuid) {
    && k in w.store.objects
    && w.store.objects[k].status == ReadyStatus(obj, u, w.store.objects[k].status.sequence)
  }

  /** The client that one reconcile uses. */
  class Client {
    const cluster: Cluster
    const key: Key

    constructor (cluster: Cluster, key: Key)
      ensures this.cluster == cluster && this.key == key
    {
      this.cluster, this.key := cluster, key;
    }

    method CreateRule(rule: FirewallRule) returns (r: Result<Uuid>)
      requires cluster.Valid() && PcOf(cluster.world, key).Creating?
      requires rule == SpecToRule(PcOf(cluster.world, key).obj.spec, key)
      modifies cluster
      ensures cluster.Stepped(key)
      ensures
        var obj := old(PcOf(cluster.world, key)).obj;
        match r
        case Ok(uuid) =>
          PcOf(cluster.world, key) == Applying(obj, uuid) && InAgreement(cluster.world, key, obj.spec, uuid)
        case Err(ValidationFailed(text)) => PcOf(cluster.world, key) == SavingFailure(obj, "ValidationFailed", text)
        case Err(error) => PcOf(cluster.world, key) == SavingFailure(obj, "CreateFailed", error.text)
    {
      var reply := cluster.AddRule(key, EncodeFirewallRule(rule));
      if reply.Failed? {
        return Err(Other(reply.text));
      }
      var failure := ResultError(reply.body, "saved", reply.text);
      if failure.Some? {
        return Err(failure.value);
      }
      if reply.body.uuid == "" {
        return Err(Other(reply.text));
      }
      return Ok(reply.body.uuid);
    }

    method UpdateRule(uuid: Uuid, rule: FirewallRule) returns (r: Result<()>)
      requires cluster.Valid() && PcOf(cluster.world, key).Updating? && uuid == PcOf(cluster.world, key).uuid
      requires rule == SpecToRule(PcOf(cluster.world, key).obj.spec, key)
      modifies cluster
      ensures cluster.Stepped(key)
      ensures
        var obj := old(PcOf(cluster.world, key)).obj;
        match r
        case Ok(_) =>
          PcOf(cluster.world, key) == Applying(obj, uuid) && InAgreement(cluster.world, key, obj.spec, uuid)
        case Err(NotFound(text)) =>
          PcOf(cluster.world, key) == SavingFailure(obj, "NotFound", text) && cluster.ToldUnknown(uuid)
        case Err(ValidationFailed(text)) => PcOf(cluster.world, key) == SavingFailure(obj, "ValidationFailed", text)
        case Err(Other(text)) => PcOf(cluster.world, key) == SavingFailure(obj, "UpdateFailed", text)
      ensures cluster.ToldUnknown(uuid) ==> r.Err? && r.error.NotFound?
    {
      var reply := cluster.SetRule(key, uuid, EncodeFirewallRule(rule));
      if reply.Failed? {
        return Err(Other(reply.text));
      }
      if reply.body.result == "failed" && reply.body.validations == map[] {
        return Err(NotFound(reply.text));
      }
      var failure := ResultError(reply.body, "saved", reply.text);
      if failure.Some? {
        return Err(failure.value);
      }
      return Ok(());
    }

    method DeleteRule(uuid: Uuid) returns (r: Result<()>)
      requires cluster.Valid() && PcOf(cluster.world, key).DeletingRule?
      requires uuid == PcOf(cluster.world, key).obj.status.uuid
      modifies cluster
      ensures cluster.Stepped(key)
      ensures
        var obj := old(PcOf(cluster.world, key)).obj;
        if r.Ok? || r.error.NotFound?
        then PcOf(cluster.world, key) == ApplyingDelete(obj) && uuid !in cluster.world.staged
        else PcOf(cluster.world, key) == SavingFailure(obj, "DeleteFailed", r.error.text)
    {
      var reply := cluster.DelRule(key, uuid);
      if reply.Failed? {
        return Err(Other(reply.text));
      }
      if reply.body == "deleted" {
        return Ok(());
      } else if reply.body == "not found" {
        return Err(NotFound(reply.text));
      } else {
        return Err(Other(reply.text));
      }
    }

    method ApplyFirewallRules() returns (r: Result<()>)
      requires cluster.Valid() && (PcOf(cluster.world, key).Applying? || PcOf(cluster.world, key).ApplyingDelete?)
      modifies cluster
      ensures cluster.Stepped(key)
      ensures
        var pc := old(PcOf(cluster.world, key));
        if r.Ok? then
          && cluster.world.live == cluster.world.staged
          && PcOf(cluster.world, key) ==
               if pc.Applying? then ReadingBack(pc.obj, pc.uuid) else RemovingFinalizer(pc.obj)
        else PcOf(cluster.world, key) == SavingFailure(pc.obj, "ApplyFailed", r.error.text)
    {
      var reply := cluster.Apply(key);
      if reply.Failed? || TrimSpace(reply.body) != "OK" {
        return Err(Other(reply.text));
      }
      return Ok(());
    }

    /** An answer is what the box has staged at that moment, and "not found" means that it has nothing. */
    method GetRule(uuid: Uuid) returns (r: Result<FirewallRule>)
      requires cluster.Valid()
      requires
        var pc := PcOf(cluster.world, key);
        || (pc.Reading? && uuid == pc.obj.status.uuid)
        || ((pc.ReadingHit? || pc.ReadingBack?) && uuid == pc.uuid)
      modifies cluster
      ensures cluster.Stepped(key) && cluster.Succeeded() && cluster.LastRead(key, old(PcOf(cluster.world, key)))
      ensures r.Ok? ==> uuid in cluster.world.staged && r.value == Decode(cluster.world.staged[uuid])
      ensures r.Err? && r.error.NotFound? ==> uuid !in cluster.world.staged
      ensures
        var pc := old(PcOf(cluster.world, key));
        match r
        case Ok(rule) =>
          PcOf(cluster.world, key) ==
            (if pc.ReadingBack? then SavingReady(pc.obj, uuid, rule.sequence)
             else AfterResolve(key, pc.obj, uuid, rule))
        case Err(error) =>
          PcOf(cluster.world, key) ==
            if error.NotFound? && pc.Reading? then Searching(pc.obj)
            else SavingFailure(pc.obj, if pc.ReadingBack? then "GetFailed" else "LookupFailed", error.text)
    {
      var reply := cluster.GetRule(key, uuid);
      if reply.Failed? {
        return Err(Other(reply.text));
      }
      match reply.body {
        case EmptyArray => return Err(NotFound(reply.text));
        case NoRule => return Err(Other(reply.text));
        case RuleData(data) =>
          var rule := DecodeRule(data, cluster.world.staged[uuid]);
          return Ok(rule);
      }
    }

    method SearchRuleByManagedSuffix(suffix: string) returns (r: Result<seq<Uuid>>, text: string)
      requires cluster.Valid() && PcOf(cluster.world, key).Searching? && suffix == Phrase(key)
      modifies cluster
      ensures cluster.Stepped(key)
      ensures
        var obj := old(PcOf(cluster.world, key)).obj;
        match r
        case Ok(uuids) =>
          && (forall u :: u in uuids <==> u in Hits(cluster.world.staged, key))
          && |uuids| == |Hits(cluster.world.staged, key)|
          && PcOf(cluster.world, key) == AfterSearch(obj, Hits(cluster.world.staged, key), text)
        case Err(error) => PcOf(cluster.world, key) == SavingFailure(obj, "LookupFailed", error.text)
    {
      var reply := cluster.SearchRule(key, suffix);
      text := reply.text;
      if reply.Failed? {
        return Err(Other(reply.text)), text;
      }
      var uuids: seq<Uuid> := [];
      for i := 0 to |reply.body|
        invariant uuids == reply.body[..i]
      {
        uuids := uuids + [reply.body[i]];
      }
      return Ok(uuids), text;
    }
  }

  /** The reconciler's in-memory copy of a resource. */
  class FirewallRuleCopy {
    const key: Key
    const spec: Spec
    const generation: nat
    const deleting: bool
    const version: nat
    var finalizers: set<string>
    var uuid: Uuid
    var sequence: string
    var observedGeneration: nat
    var ready: Option<Condition>

    constructor (key: Key, obj: RuleObject)
      ensures Value() == obj && this.key == key
    {
      this.key := key;
      spec, generation, deleting, version, finalizers :=
        obj.spec, obj.generation, obj.deleting, obj.version, obj.finalizers;
      uuid, sequence, observedGeneration, ready :=
        obj.status.uuid, obj.status.sequence, obj.status.observedGeneration, obj.status.ready;
    }

    function Value(): RuleObject
      reads this
    {
      Object(spec, Status(uuid, sequence, observedGeneration, ready), generation, deleting, finalizers, version)
    }
  }

  /** What resolveExternalRule returns. */
  datatype Resolution = Absent | Present(uuid: Uuid, existing: FirewallRule) | Unresolved(text: string)

  /** At some instant between the two histories the search for `k` hit exactly `hits`. */
  ghost predicate SearchedBetween(start: World, before: seq<Event>, after: seq<Event>, k: Key, hits: set<Uuid>) {
    exists i | |before| <= i <= |after| :: Hits(Run(start, after[..i]).staged, k) == hits
  }

  /** What a resolution says of the world it is returned in, and where it leaves the reconcile. */
  ghost predicate Resolved(r: Resolution, w: World, k: Key, obj: RuleObject) {
    match r
    case Present(u, existing) =>
      u in w.staged && existing == Decode(w.staged[u]) && PcOf(w, k) == AfterResolve(k, obj, u, existing)
    case Absent => Hits(w.staged, k) == {} && PcOf(w, k) == Creating(obj)
    case Unresolved(text) => PcOf(w, k) == SavingFailure(obj, "LookupFailed", text)
  }

  /** The store still has the status that the copy was read with, and Ready=True in it is what success writes. */
  ghost predicate StatusKept(w: World, k: Key, obj: RuleObject) {
    k in w.store.objects && w.store.objects[k].status == obj.status && ReadyIsCanonical(obj.status)
  }

  lemma LastReadKeepsStatus(cluster: Cluster, pc: Pc, k: Key)
    requires Initial(cluster.start) && ValidKey(k) && (pc.Reading? || pc.ReadingHit?) && cluster.LastRead(k, pc)
    ensures StatusKept(cluster.world, k, pc.obj)
  {
    var earlier := cluster.trace[..|cluster.trace| - 1];
    ReachableInv(cluster.start, earlier);
    assert KeyGood(Run(cluster.start, earlier), k);
  }

  /**
   What a reconcile without an error has achieved, by the resource that its Get read after `i` events. A new
   resource has its finalizer. A deletion has dropped it, and a recorded rule is out of both configurations.
   Otherwise the resource is reported as ready, for that generation, with a rule that has carried its spec.
   */
  ghost predicate Achieves(start: World, after: seq<Event>, i: nat, k: Key)
    requires i <= |after|
  {
    var objects, now := Run(start, after[..i]).store.objects, Run(start, after);
    k in objects ==>
      var obj := objects[k];
      if obj.deleting then
        FINALIZER in obj.finalizers ==>
          !HasFinalizer(now, k) && (obj.status.uuid != "" ==> Gone(now, obj.status.uuid))
      else if FINALIZER !in obj.finalizers then HasFinalizer(now, k)
      else exists u :: ReportsReady(now, k, obj, u) && AgreedBetween(start, after[..i], after, k, obj.spec, u)
  }

  /** The store reports success with `u` for the copy `obj`, and `u` has carried its spec since `before`. */
  ghost predicate SettlesOn(cluster: Cluster, before: seq<Event>, k: Key, obj: RuleObject, u: Uuid)
    reads cluster
  {
    && ReportsReady(cluster.world, k, obj, u)
    && AgreedBetween(cluster.start, before, cluster.trace, k, obj.spec, u)
  }

  /** The history from `before` to `after` holds one reconcile of `k`, started by event `i`. */
  ghost predicate OneReconcile(before: seq<Event>, after: seq<Event>, i: nat, k: Key) {
    && |before| <= i < |after| && after[..|before|] == before
    && after[i].Begin? && after[i].key == k
    && (forall j | |before| <= j < i :: !ByOwn(after[j], k))
    && Continues(after[..i + 1], after, k)
  }

  class FirewallRuleReconciler {
    const cluster: Cluster

    constructor (cluster: Cluster)
      ensures this.cluster == cluster
    {
      this.cluster := cluster;
    }

    method SetReadyCondition(rule: FirewallRuleCopy, ok: bool, reason: string, message: string) returns (saved: bool)
      requires cluster.Valid()
      requires
        var pc := PcOf(cluster.world, rule.key);
        var copy := rule.Value();
        var written := copy.(status := copy.status.(ready := Some(Condition(ok, reason, message, copy.generation))));
        || (pc.SavingReady? && written == pc.obj.(status := ReadyStatus(pc.obj, pc.uuid, pc.sequence)))
        || (pc.SavingFailure? && written == pc.obj.(status := FailedStatus(pc.obj, pc.reason, pc.message)))
      modifies cluster, rule
      ensures cluster.Stepped(rule.key) && PcOf(cluster.world, rule.key).Idle?
      ensures cluster.Succeeded() == (saved && old(PcOf(cluster.world, rule.key)).SavingReady?)
      ensures
        var copy := old(rule.Value());
        rule.Value() == copy.(status := copy.status.(ready := Some(Condition(ok, reason, message, copy.generation))))
      ensures cluster.Wrote(rule.key, rule.Value()) && (saved ==> cluster.Stored(rule.key, rule.Value().status))
    {
      rule.ready := Some(Condition(ok, reason, message, rule.generation));
      saved := cluster.UpdateStatus(rule.key, rule.Value());
    }

    method SetReadyFailed(rule: FirewallRuleCopy, reason: string, message: string)
      requires cluster.Valid() && PcOf(cluster.world, rule.key) == SavingFailure(rule.Value(), reason, message)
      modifies cluster, rule
      ensures cluster.Stepped(rule.key) && PcOf(cluster.world, rule.key).Idle?
      ensures !cluster.Succeeded() && cluster.Wrote(rule.key, rule.Value())
      ensures rule.Value() == old(rule.Value()).(status := FailedStatus(old(rule.Value()), reason, message))
      ensures rule.ready == Some(Condition(false, reason, message, rule.generation))
      ensures
        && rule.uuid == old(rule.uuid) && rule.sequence == old(rule.sequence)
        && rule.observedGeneration == old(rule.observedGeneration) && rule.finalizers == old(rule.finalizers)
    {
      var _ := SetReadyCondition(rule, false, reason, message);
    }

    method SetReadySuccess(rule: FirewallRuleCopy, uuid: Uuid, sequence: string) returns (saved: bool)
      requires cluster.Valid() && PcOf(cluster.world, rule.key) == SavingReady(rule.Value(), uuid, sequence)
      modifies cluster, rule
      ensures cluster.Stepped(rule.key) && PcOf(cluster.world, rule.key).Idle?
      ensures saved == cluster.Succeeded() && cluster.Wrote(rule.key, rule.Value())
      ensures rule.Value() == old(rule.Value()).(status := ReadyStatus(old(rule.Value()), uuid, sequence))
      ensures rule.uuid == uuid && rule.sequence == sequence && rule.observedGeneration == rule.generation
      ensures
        rule.ready ==
          Some(Condition(true, "FirewallRuleReady", "FirewallRule is in sync with OPNsense", rule.generation))
      ensures saved ==> ReportsReady(cluster.world, rule.key, old(rule.Value()), uuid)
    {
      rule.uuid := uuid;
      rule.sequence := sequence;
      rule.observedGeneration := rule.generation;
      saved := SetReadyCondition(rule, true, READY_REASON, READY_MESSAGE);
    }

    /** The fallback: the search for the managed suffix, and the read of its only hit. */
    method SearchExternalRule(client: Client, rule: FirewallRuleCopy) returns (r: Resolution)
      requires cluster.Valid() && client.cluster == cluster && client.key == rule.key
      requires Initial(cluster.start) && ValidKey(rule.key)
      requires PcOf(cluster.world, rule.key) == Searching(rule.Value())
      modifies cluster
      ensures cluster.Stepped(rule.key) && rule.Value() == old(rule.Value())
      ensures Resolved(r, cluster.world, rule.key, rule.Value())
      ensures r.Present? ==> cluster.Succeeded() && StatusKept(cluster.world, rule.key, rule.Value())
      ensures r.Present? ==> SearchedBetween(cluster.start, old(cluster.trace), cluster.trace, rule.key, {r.uuid})
    {
      ghost var before := cluster.trace;
      var suffix := rule.key.ns + "/" + rule.key.name;
      var found, text := client.SearchRuleByManagedSuffix(suffix);
      ghost var middle := cluster.trace;
      if found.Err? {
        return Unresolved(found.error.text);
      }
      var uuids := found.value;
      if |uuids| == 0 {
        return Absent;
      } else if |uuids| == 1 {
        assert Hits(cluster.world.staged, rule.key) == {uuids[0]} by {
          assert TheOnly(Hits(cluster.world.staged, rule.key)) == uuids[0];
        }
        var got := client.GetRule(uuids[0]);
        LastReadKeepsStatus(cluster, ReadingHit(rule.Value(), uuids[0]), rule.key);
        SearchedThen(cluster.start, before, middle, cluster.trace, rule.key, {uuids[0]});
        ContinuesTransitive(before, middle, cluster.trace, rule.key);
        if got.Err? {
          return Unresolved(got.error.text);
        }
        return Present(uuids[0], got.value);
      } else {
        return Unresolved(text);
      }
    }

    /**
     A rule is returned with the state it has at that moment, and it is the recorded one or the search's only
     hit; "absent" means that the recorded rule is not staged and that no rule matches; anything else,
     several hits included, leaves the reconcile with a failure to report and no write to make.
     */
    method ResolveExternalRule(client: Client, rule: FirewallRuleCopy) returns (r: Resolution)
      requires cluster.Valid() && client.cluster == cluster && client.key == rule.key
      requires Initial(cluster.start) && ValidKey(rule.key)
      requires
        PcOf(cluster.world, rule.key) == if rule.uuid != "" then Reading(rule.Value()) else Searching(rule.Value())
      modifies cluster
      ensures cluster.Stepped(rule.key) && rule.Value() == old(rule.Value())
      ensures Resolved(r, cluster.world, rule.key, rule.Value())
      ensures r.Present? ==> cluster.Succeeded() && StatusKept(cluster.world, rule.key, rule.Value())
      ensures r.Present? ==>
                || r.uuid == rule.uuid
                || SearchedBetween(cluster.start, old(cluster.trace), cluster.trace, rule.key, {r.uuid})
      ensures r.Absent? ==> rule.uuid !in cluster.world.staged
    {
      ghost var before := cluster.trace;
      if rule.uuid != "" {
        var got := client.GetRule(rule.uuid);
        LastReadKeepsStatus(cluster, Reading(rule.Value()), rule.key);
        if got.Ok? {
          return Present(rule.uuid, got.value);
        }
        if !got.error.NotFound? {
          return Unresolved(got.error.text);
        }
      }
      ghost var middle := cluster.trace;
      r := SearchExternalRule(client, rule);
      if r.Present? {
        EarlierSearch(cluster.start, before, middle, cluster.trace, rule.key, {r.uuid});
      } else if r.Absent? {
        AbsentMeansUnstaged(cluster.start, cluster.trace, rule.key);
      }
      ContinuesTransitive(before, middle, cluster.trace, rule.key);
    }

    /** A client, or the reason for the first check that failed. */
    method BuildOPNsenseClient(rule: FirewallRuleCopy) returns (client: Client?, reason: string, text: string)
      requires cluster.Valid() && PcOf(cluster.world, rule.key) == Connecting(rule.Value())
      modifies cluster
      ensures cluster.Stepped(rule.key) && rule.Value() == old(rule.Value())
      ensures client != null ==> fresh(client) && client.cluster == cluster && client.key == rule.key
      ensures client != null <==> Usable(old(cluster.Upcoming()).setup)
      ensures client == null ==> Explains(reason, old(cluster.Upcoming()).setup)
      ensures
        PcOf(cluster.world, rule.key) ==
          if client == null then SavingFailure(rule.Value(), reason, text)
          else if rule.deleting then DeletingRule(rule.Value())
          else if rule.uuid != "" then Reading(rule.Value())
          else Searching(rule.Value())
    {
      var ok;
      ok, reason, text := cluster.Connect(rule.key);
      if ok {
        client := new Client(cluster, rule.key);
      } else {
        client := null;
      }
    }

    /** Deletes and applies before it drops the finalizer: without an error, the recorded rule is gone for good. */
    method ReconcileDelete(rule: FirewallRuleCopy) returns (ok: bool)
      requires cluster.Valid() && Initial(cluster.start) && ValidKey(rule.key) && rule.deleting
      requires
        PcOf(cluster.world, rule.key) ==
          if FINALIZER !in rule.finalizers then Idle
          else if rule.uuid == "" then RemovingFinalizer(rule.Value())
          else Connecting(rule.Value())
      requires FINALIZER !in rule.finalizers ==> cluster.Succeeded()
      modifies cluster, rule
      ensures cluster.Stepped(rule.key) && PcOf(cluster.world, rule.key).Idle?
      ensures ok && old(FINALIZER in rule.finalizers) ==> !HasFinalizer(cluster.world, rule.key)
      ensures ok && old(FINALIZER in rule.finalizers) && old(rule.uuid) != "" ==> Gone(cluster.world, old(rule.uuid))
      ensures ok == cluster.Succeeded()
    {
      if FINALIZER !in rule.finalizers {
        return true;
      }

      if rule.uuid == "" {
        rule.finalizers := rule.finalizers - {FINALIZER};
        ok := cluster.Update(rule.key, rule.Value());
        return;
      }

      ghost var t0 := cluster.trace;
      var client, reason, text := BuildOPNsenseClient(rule);
      ghost var t1 := cluster.trace;
      if client == null {
        SetReadyFailed(rule, reason, text);
        ContinuesTransitive(t0, t1, cluster.trace, rule.key);
        return false;
      }

      var deleted := client.DeleteRule(rule.uuid);
      ghost var t2 := cluster.trace;
      ContinuesTransitive(t0, t1, t2, rule.key);
      if deleted.Err? && !deleted.error.NotFound? {
        SetReadyFailed(rule, "DeleteFailed", deleted.error.text);
        ContinuesTransitive(t0, t2, cluster.trace, rule.key);
        return false;
      }

      var applied := client.ApplyFirewallRules();
      ghost var t3 := cluster.trace;
      ContinuesTransitive(t0, t2, t3, rule.key);
      if applied.Err? {
        SetReadyFailed(rule, "ApplyFailed", applied.error.text);
        ContinuesTransitive(t0, t3, cluster.trace, rule.key);
        return false;
      }

      ok := RemoveFinalizer(rule);
      ContinuesTransitive(t0, t3, cluster.trace, rule.key);
    }

    /** The last step of a deletion, with the rule out of both configurations. */
    method RemoveFinalizer(rule: FirewallRuleCopy) returns (ok: bool)
      requires cluster.Valid() && Initial(cluster.start) && ValidKey(rule.key) && rule.uuid != ""
      requires PcOf(cluster.world, rule.key) == RemovingFinalizer(rule.Value())
      modifies cluster, rule`finalizers
      ensures cluster.Stepped(rule.key) && PcOf(cluster.world, rule.key).Idle?
      ensures Gone(cluster.world, old(rule.uuid)) && (ok ==> !HasFinalizer(cluster.world, rule.key))
      ensures ok == cluster.Succeeded()
    {
      ghost var earlier := cluster.trace;
      ReachableInv(cluster.start, earlier);
      assert KeyGood(cluster.world, rule.key);
      rule.finalizers := rule.finalizers - {FINALIZER};
      ok := cluster.Update(rule.key, rule.Value());
      ghost var later := cluster.trace[|earlier|..];
      assert cluster.trace == earlier + later;
      RunConcat(cluster.start, earlier, later);
      GoneForever(Run(cluster.start, earlier), later, rule.uuid);
    }

    method CreateExternalRule(client: Client, rule: FirewallRuleCopy) returns (ok: bool)
      requires cluster.Valid() && client.cluster == cluster && client.key == rule.key
      requires PcOf(cluster.world, rule.key) == Creating(rule.Value())
      modifies cluster, rule
      ensures cluster.Stepped(rule.key) && PcOf(cluster.world, rule.key).Idle?
      ensures ok ==> SettlesOn(cluster, old(cluster.trace), rule.key, old(rule.Value()), rule.uuid)
      ensures ok == cluster.Succeeded()
    {
      ghost var before := cluster.trace;
      var created := client.CreateRule(SpecToRule(rule.spec, rule.key));
      ghost var written := cluster.trace;
      if created.Err? {
        var reason := "CreateFailed";
        if created.error.ValidationFailed? {
          reason := "ValidationFailed";
        }
        SetReadyFailed(rule, reason, created.error.text);
        ok := false;
      } else {
        ok := ApplyAndRecord(client, rule, created.value);
        AgreedNow(cluster.start, before, written, cluster.trace, rule.key, rule.spec, created.value);
      }
      ContinuesTransitive(before, written, cluster.trace, rule.key);
    }

    method UpdateExternalRule(client: Client, rule: FirewallRuleCopy, uuid: Uuid) returns (ok: bool)
      requires cluster.Valid() && client.cluster == cluster && client.key == rule.key
      requires PcOf(cluster.world, rule.key) == Updating(rule.Value(), uuid)
      modifies cluster, rule
      ensures cluster.Stepped(rule.key) && PcOf(cluster.world, rule.key).Idle?
      ensures ok ==> SettlesOn(cluster, old(cluster.trace), rule.key, old(rule.Value()), rule.uuid)
      ensures ok == cluster.Succeeded()
    {
      ghost var before := cluster.trace;
      var updated := client.UpdateRule(uuid, SpecToRule(rule.spec, rule.key));
      ghost var written := cluster.trace;
      if updated.Err? {
        var reason := "UpdateFailed";
        if updated.error.NotFound? {
          reason := "NotFound";
        }
        if updated.error.ValidationFailed? {
          reason := "ValidationFailed";
        }
        SetReadyFailed(rule, reason, updated.error.text);
        ok := false;
      } else {
        ok := ApplyAndRecord(client, rule, uuid);
        AgreedNow(cluster.start, before, written, cluster.trace, rule.key, rule.spec, uuid);
      }
      ContinuesTransitive(before, written, cluster.trace, rule.key);
    }

    /** What both write paths end with: apply, read back, record. */
    method ApplyAndRecord(client: Client, rule: FirewallRuleCopy, uuid: Uuid) returns (ok: bool)
      requires cluster.Valid() && client.cluster == cluster && client.key == rule.key
      requires PcOf(cluster.world, rule.key) == Applying(rule.Value(), uuid)
      modifies cluster, rule
      ensures cluster.Stepped(rule.key) && PcOf(cluster.world, rule.key).Idle?
      ensures ok == cluster.Succeeded()
      ensures ok ==> rule.uuid == uuid && ReportsReady(cluster.world, rule.key, old(rule.Value()), uuid)
    {
      ghost var t0 := cluster.trace;
      var applied := client.ApplyFirewallRules();
      ghost var t1 := cluster.trace;
      if applied.Err? {
        SetReadyFailed(rule, "ApplyFailed", applied.error.text);
        ContinuesTransitive(t0, t1, cluster.trace, rule.key);
        return false;
      }
      var readBack := client.GetRule(uuid);
      ghost var t2 := cluster.trace;
      ContinuesTransitive(t0, t1, t2, rule.key);
      if readBack.Err? {
        SetReadyFailed(rule, "GetFailed", readBack.error.text);
        ok := false;
      } else {
        ok := SetReadySuccess(rule, uuid, readBack.value.sequence);
      }
      ContinuesTransitive(t0, t2, cluster.trace, rule.key);
    }

    /** What a reconcile without drift ends with: the status is written unless it says all that already. */
    method RecordExisting(rule: FirewallRuleCopy, uuid: Uuid, sequence: string) returns (ok: bool)
      requires cluster.Valid() && cluster.Succeeded() && StatusKept(cluster.world, rule.key, rule.Value())
      requires
        PcOf(cluster.world, rule.key) ==
          if ReflectsCurrent(rule.Value(), uuid, sequence) then Idle else SavingReady(rule.Value(), uuid, sequence)
      modifies cluster, rule
      ensures cluster.Stepped(rule.key) && PcOf(cluster.world, rule.key).Idle?
      ensures ok == cluster.Succeeded()
      ensures ok ==> rule.uuid == uuid && ReportsReady(cluster.world, rule.key, old(rule.Value()), uuid)
    {
      if rule.uuid == uuid && rule.sequence == sequence &&
         rule.observedGeneration == rule.generation && rule.ready.Some? && rule.ready.value.ok {
        return true;
      }
      ok := SetReadySuccess(rule, uuid, sequence);
    }

    /** The part of Reconcile that follows the checks for deletion and finalizer. */
    method ReconcileExternalRule(rule: FirewallRuleCopy) returns (ok: bool)
      requires cluster.Valid() && Initial(cluster.start) && ValidKey(rule.key)
      requires !rule.deleting && PcOf(cluster.world, rule.key) == Connecting(rule.Value())
      modifies cluster, rule
      ensures cluster.Stepped(rule.key) && PcOf(cluster.world, rule.key).Idle?
      ensures ok ==> SettlesOn(cluster, old(cluster.trace), rule.key, old(rule.Value()), rule.uuid)
      ensures ok == cluster.Succeeded()
    {
      ghost var t0 := cluster.trace;
      var client, reason, text := BuildOPNsenseClient(rule);
      ghost var t1 := cluster.trace;
      if client == null {
        SetReadyFailed(rule, reason, text);
        ContinuesTransitive(t0, t1, cluster.trace, rule.key);
        return false;
      }

      var resolution := ResolveExternalRule(client, rule);
      ghost var t2 := cluster.trace;
      ContinuesTransitive(t0, t1, t2, rule.key);
      match resolution {
        case Unresolved(message) =>
          SetReadyFailed(rule, "LookupFailed", message);
          ok := false;
        case Absent =>
          ok := CreateExternalRule(client, rule);
        case Present(uuid, existing) =>
          DriftTestIsExact(rule.spec, rule.key, cluster.world.staged[uuid]);
          if RuleNeedsUpdate(rule.spec, rule.key, existing) {
            ok := UpdateExternalRule(client, rule, uuid);
          } else {
            ok := RecordExisting(rule, uuid, existing.sequence);
            AgreedNow(cluster.start, t0, t2, cluster.trace, rule.key, rule.spec, uuid);
          }
      }
      ContinuesTransitive(t0, t2, cluster.trace, rule.key);
    }

    /**
     One reconcile of `k` is one reconcile of the state machine: the history it adds is a run in which `k`
     starts once, makes calls only, and ends idle, while everybody else acts in between as they please.
     It ends with an error exactly if its last event does; without one it has done what the resource that it
     read asks for.
     */
    method Reconcile(k: Key) returns (ok: bool)
      requires cluster.Valid() && Initial(cluster.start) && ValidKey(k) && PcOf(cluster.world, k).Idle?
      modifies cluster
      ensures cluster.Valid() && cluster.start == old(cluster.start) && PcOf(cluster.world, k).Idle?
      ensures exists i ::
                && 0 <= i <= |cluster.trace| && OneReconcile(old(cluster.trace), cluster.trace, i, k)
                && (ok ==> Achieves(cluster.start, cluster.trace, i, k))
      ensures ok == cluster.Succeeded()
    {
      ghost var before := cluster.trace;
      var found, got := cluster.Get(k);
      ghost var started := cluster.trace;
      ghost var i := |started| - 1;
      assert started[..|started|] == started;
      if !got || found.None? {
        StartedOnce(before, started, cluster.trace, k);
        assert OneReconcile(before, cluster.trace, i, k) && (got ==> Achieves(cluster.start, cluster.trace, i, k));
        return got;
      }
      var rule := new FirewallRuleCopy(k, found.value);

      if rule.deleting {
        ok := ReconcileDelete(rule);
      } else if FINALIZER !in rule.finalizers {
        rule.finalizers := rule.finalizers + {FINALIZER};
        ok := cluster.Update(k, rule.Value());
      } else {
        ok := ReconcileExternalRule(rule);
      }
      StartedOnce(before, started, cluster.trace, k);
      assert cluster.trace[..i] == started[..i];
      assert OneReconcile(before, cluster.trace, i, k) && (ok ==> Achieves(cluster.start, cluster.trace, i, k));
    }
  }

  lemma StartedOnce(before: seq<Event>, started: seq<Event>, after: seq<Event>, k: Key)
    requires |before| < |started| && started[..|before|] == before
    requires started[|started| - 1].Begin? && started[|started| - 1].key == k
    requires forall j | |before| <= j < |started| - 1 :: !ByOwn(started[j], k)
    requires Continues(started, after, k)
    ensures OneReconcile(before, after, |started| - 1, k)
  {
    assert after[..|started|] == started;
    assert forall j | 0 <= j < |started| :: after[j] == started[j];
    assert after[..|before|] == before;
  }

  lemma SearchedThen(
      start: World, before: seq<Event>, middle: seq<Event>, after: seq<Event>, k: Key, hits: set<Uuid>)
    requires |before| <= |middle| && Continues(middle, after, k) && Hits(Run(start, middle).staged, k) == hits
    ensures SearchedBetween(start, before, after, k, hits)
  {
    assert after[..|middle|] == middle;
  }

  lemma ContinuesTransitive(before: seq<Event>, middle: seq<Event>, after: seq<Event>, k: Key)
    requires Continues(before, middle, k) && Continues(middle, after, k)
    ensures Continues(before, after, k)
  {
    assert forall i | 0 <= i < |middle| :: after[i] == after[..|middle|][i] == middle[i];
    assert after[..|before|] == after[..|middle|][..|before|];
  }

  lemma AbsentMeansUnstaged(w0: World, es: seq<Event>, k: Key)
    requires Initial(w0) && ValidKey(k) && PcOf(Run(w0, es), k).Creating?
    ensures PcOf(Run(w0, es), k).obj.status.uuid !in Run(w0, es).staged
  {
    ReachableInv(w0, es);
    assert KeyGood(Run(w0, es), k);
  }

  lemma EarlierSearch(
      start: World, before: seq<Event>, middle: seq<Event>, after: seq<Event>, k: Key, hits: set<Uuid>)
    requires |before| <= |middle| && SearchedBetween(start, middle, after, k, hits)
    ensures SearchedBetween(start, before, after, k, hits)
  {
  }
}
