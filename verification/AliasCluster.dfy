/**
 The world as the alias reconciler's calls meet it: the API server and the alias endpoints of the box, with
 everybody else acting between the calls. Every endpoint is proved to be one step of the state machine.
 */
module AliasCluster {
  import opened Kube
  import opened Opnsense
  import opened Connection
  import opened Replies
  import opened AliasSpec
  import opened AliasMachine
  import opened AliasSafety

  /**
   What the environment does around one call: the events before it, its outcome, what there is to build a client
   from, and the answer to a call that fails with a malformed one.
   */
  datatype Turn = Turn(meanwhile: seq<Event>, outcome: Outcome, setup: Setup, odd: ResultResponse)

  /** export's reply: an empty array, the exported alias, or data without it. */
  datatype ExportReply = NoAlias | Exported(alias: StoredAlias) | Unexpected

  predicate ByOwn(e: Event, k: Key) {
    (e.Begin? || e.Call? || e.Crash?) && e.key == k
  }

  ghost predicate Continues(before: seq<Event>, after: seq<Event>, k: Key) {
    && |before| <= |after| && after[..|before|] == before
    && forall i | |before| <= i < |after| && ByOwn(after[i], k) :: after[i].Call?
  }

  /**
   A reconcile that ends with event `e` returns no error: the resource could be read, no failure was being
   reported, and the last write to the API server was performed, answered and not stale.
   */
  predicate Succeeds(w: World, e: Event) {
    match e
    case Begin(_, ok) => ok
    case Call(k, o) =>
      var pc := PcOf(w, k);
      if pc.SavingFailure? then false
      else if pc.AddingFinalizer? || pc.RemovingFinalizer? || pc.SavingReady?
      then o.fate.Done? && Current(w.store, k, pc.obj)
      else true
    case _ => true
  }

  lemma ContinuesTransitive(before: seq<Event>, middle: seq<Event>, after: seq<Event>, k: Key)
    requires Continues(before, middle, k) && Continues(middle, after, k)
    ensures Continues(before, after, k)
  {
    assert forall i | 0 <= i < |middle| :: after[i] == after[..|middle|][i] == middle[i];
    assert after[..|before|] == after[..|middle|][..|before|];
  }

  lemma OthersKeepPc(w: World, e: Event, k: Key)
    requires !ByOwn(e, k)
    ensures PcOf(Next(w, e), k) == PcOf(w, k)
  {
  }

  function ReplyToAdd(o: Outcome, taken: bool, odd: ResultResponse): Reply<ResultResponse> {
    match o.fate
    case Done =>
      if taken then Answer(ResultResponse("failed", "", map["alias.name" := "taken"]), o.text)
      else Answer(ResultResponse("saved", o.uuid, map[]), o.text)
    case Refused => Answer(ResultResponse("failed", "", o.validations), o.text)
    case _ => Broken(odd, "saved", true, o.text)
  }

  /** setItem of an unknown uuid fails without validations. */
  function ReplyToSet(o: Outcome, known: bool, taken: bool, odd: ResultResponse): Reply<ResultResponse> {
    match o.fate
    case Done =>
      if !known then Answer(ResultResponse("failed", "", map[]), o.text)
      else if taken then Answer(ResultResponse("failed", "", map["alias.name" := "taken"]), o.text)
      else Answer(ResultResponse("saved", "", map[]), o.text)
    case Refused => Answer(ResultResponse("failed", "", if known then o.validations else map[]), o.text)
    case _ => Broken(odd, "saved", false, o.text)
  }

  lemma AddLeads(w: World, k: Key, o: Outcome, odd: ResultResponse)
    requires Enabled(w, Call(k, o)) && PcOf(w, k).Creating?
    ensures
      Perform(w, k, o) ==
        w.(staged := StagedAfter(w, k, o), used := UsedAfter(w, k, o), pcs := w.pcs[k := PcAfter(w, k, o)])
    ensures
      var obj := PcOf(w, k).obj;
      match ReplyToAdd(o, NameTaken(w.staged, obj.spec.name, {}), odd)
      case Failed(text) => PcAfter(w, k, o) == SavingFailure(obj, "CreateFailed", text)
      case Answer(r, text) =>
        if r.result == "saved" && r.uuid != "" then
          && PcAfter(w, k, o) == Reconfiguring(obj, r.uuid) && r.uuid == o.uuid
          && r.uuid in StagedAfter(w, k, o) && DecodeAlias(StagedAfter(w, k, o)[r.uuid]) == SpecToAlias(obj.spec)
        else
          PcAfter(w, k, o) ==
            SavingFailure(obj, if r.result == "failed" then "ValidationFailed" else "CreateFailed", text)
  {
    CreateConverges(PcOf(w, k).obj.spec);
  }

  lemma SetLeads(w: World, k: Key, o: Outcome, odd: ResultResponse)
    requires PcOf(w, k).Updating?
    ensures Perform(w, k, o) == w.(staged := StagedAfter(w, k, o), pcs := w.pcs[k := PcAfter(w, k, o)])
    ensures
      var obj, uuid := PcOf(w, k).obj, PcOf(w, k).uuid;
      match ReplyToSet(o, uuid in w.staged, NameTaken(w.staged, obj.spec.name, {uuid}), odd)
      case Failed(text) => PcAfter(w, k, o) == SavingFailure(obj, "UpdateFailed", text)
      case Answer(r, text) =>
        if r.result == "saved" then
          && PcAfter(w, k, o) == Reconfiguring(obj, uuid) && uuid in StagedAfter(w, k, o)
          && Carries(obj.spec, StagedAfter(w, k, o)[uuid]) && StagedAfter(w, k, o)[uuid].name == obj.spec.name
        else if r.result == "failed" then
          && StagedAfter(w, k, o) == w.staged
          && PcAfter(w, k, o) ==
               SavingFailure(obj, if r.validations == map[] then "UpdateFailed" else "ValidationFailed", text)
          && (r.validations == map[] <==> AnsweredUnknown(w.staged, uuid, o))
        else PcAfter(w, k, o) == SavingFailure(obj, "UpdateFailed", text) && !o.fate.Done? && !o.fate.Refused?
  {
    var clash := map["alias.name" := "taken"];
    assert "alias.name" in clash;
    if PcOf(w, k).uuid in w.staged {
      WrittenCarries(PcOf(w, k).obj.spec, w.staged[PcOf(w, k).uuid]);
    }
  }

  lemma SaveLeads(w: World, k: Key, o: Outcome, copy: AliasObject)
    requires
      var pc := PcOf(w, k);
      || (pc.SavingReady? && copy == pc.obj.(status := ReadyStatus(pc.obj, pc.uuid)))
      || (pc.SavingFailure? && copy == pc.obj.(status := FailedStatus(pc.obj, pc.reason, pc.message)))
    ensures
      var store := if o.Performed() then Kube.UpdateStatus(w.store, k, copy) else w.store;
      && Perform(w, k, o) == w.(store := store, pcs := w.pcs[k := Idle])
      && (o.Performed() && Current(w.store, k, copy) ==>
            k in store.objects && store.objects[k].status == copy.status)
  {
  }

  lemma UpdateLeads(w: World, k: Key, o: Outcome, copy: AliasObject)
    requires
      var pc := PcOf(w, k);
      || (pc.AddingFinalizer? && copy == pc.obj.(finalizers := pc.obj.finalizers + {FINALIZER}))
      || (pc.RemovingFinalizer? && copy == pc.obj.(finalizers := pc.obj.finalizers - {FINALIZER}))
    ensures
      var store := if o.Performed() then Kube.Update(w.store, k, copy) else w.store;
      var w' := w.(store := store, pcs := w.pcs[k := Idle]);
      && Perform(w, k, o) == w'
      && (o.Performed() && Current(w.store, k, copy) ==> (HasFinalizer(w', k) <==> FINALIZER in copy.finalizers))
  {
  }

  class Cluster {
    var world: World
    var script: seq<Turn>
    ghost var start: World
    ghost var trace: seq<Event>

    ghost predicate Valid()
      reads this
    {
      world == Run(start, trace)
    }

    /** The world has moved on along a run in which the reconcile of `k` only made calls. */
    twostate predicate Stepped(k: Key)
      reads this
    {
      Valid() && start == old(start) && Continues(old(trace), trace, k)
    }

    /** The last event of the history ends its reconcile without an error. */
    ghost predicate Succeeded()
      reads this
    {
      trace != [] && Succeeds(Run(start, trace[..|trace| - 1]), trace[|trace| - 1])
    }

    /** The last call took the program counter of `k` from `pc` on and changed nothing in the API server. */
    ghost predicate LastRead(k: Key, pc: Pc)
      reads this
    {
      && trace != []
      && var before := Run(start, trace[..|trace| - 1]);
      PcOf(before, k) == pc && before.store == world.store
    }

    /** The last call tried to store the status of `copy`, and that is all that can have changed in the API server. */
    ghost predicate Wrote(k: Key, copy: AliasObject)
      reads this
    {
      && trace != []
      && var before := Run(start, trace[..|trace| - 1]).store;
      world.store == before || world.store == Kube.UpdateStatus(before, k, copy)
    }

    ghost predicate Stored(k: Key, status: Status)
      reads this
    {
      k in world.store.objects && world.store.objects[k].status == status
    }

    /** The last call was a setItem on `uuid` that the box answered with a failure without validations. */
    ghost predicate ToldUnknown(uuid: Uuid)
      reads this
    {
      trace != [] && trace[|trace| - 1].Call? && AnsweredUnknown(world.staged, uuid, trace[|trace| - 1].outcome)
    }

    /** What the environment has in store for the next call; when it has nothing left, calls fail. */
    function Upcoming(): Turn
      reads this
    {
      if script != [] then script[0]
      else Turn([], Outcome(FailedBefore, "", map[], "", ""), Setup(None, None, false), ResultResponse("", "", map[]))
    }

    constructor (w: World, turns: seq<Turn>)
      ensures Valid() && world == w && start == w && trace == []
    {
      world, script := w, turns;
      start, trace := w, [];
    }

    ghost method Record(e: Event, before: World)
      requires before == Run(start, trace) && world == Next(before, e)
      modifies this`trace
      ensures Valid() && trace == old(trace) + [e] && Succeeded() == Succeeds(before, e)
    {
      assert (trace + [e])[..|trace + [e]| - 1] == trace;
      trace := trace + [e];
    }

    method Elapse(k: Key) returns (t: Turn)
      requires Valid()
      modifies this
      ensures Stepped(k) && PcOf(world, k) == old(PcOf(world, k))
      ensures forall i | |old(trace)| <= i < |trace| :: !ByOwn(trace[i], k)
      ensures t == old(Upcoming())
    {
      t := Upcoming();
      if script != [] {
        script := script[1..];
      }
      for i := 0 to |t.meanwhile|
        invariant Stepped(k) && PcOf(world, k) == old(PcOf(world, k))
        invariant forall i | |old(trace)| <= i < |trace| :: !ByOwn(trace[i], k)
      {
        var e := t.meanwhile[i];
        if !ByOwn(e, k) {
          ghost var before := world;
          OthersKeepPc(world, e, k);
          world := Next(world, e);
          Record(e, before);
        }
      }
    }

    method Await(k: Key) returns (o: Outcome, setup: Setup, odd: ResultResponse)
      requires Valid() && !PcOf(world, k).Idle?
      modifies this
      ensures Stepped(k) && PcOf(world, k) == old(PcOf(world, k))
      ensures Enabled(world, Call(k, o)) && setup == old(Upcoming()).setup
    {
      var t := Elapse(k);
      o, setup, odd := t.outcome, t.setup, t.odd;
      if o.uuid == "" || o.uuid in world.used {
        o := o.(fate := FailedBefore);
      }
    }

    method Finish(k: Key, o: Outcome, before: World, ghost first: seq<Event>)
      requires before == Run(start, trace) && Enabled(before, Call(k, o)) && Continues(first, trace, k)
      requires world == Perform(before, k, o).(pcs := before.pcs)
      modifies this`world, this`trace
      ensures Valid() && world == Perform(before, k, o) && trace == old(trace) + [Call(k, o)]
      ensures Continues(first, trace, k)
      ensures Succeeded() == Succeeds(before, Call(k, o)) && Run(start, trace[..|trace| - 1]) == before
    {
      world := world.(pcs := world.pcs[k := PcAfter(before, k, o)]);
      ghost var earlier := trace;
      Record(Call(k, o), before);
      assert trace[..|trace| - 1] == earlier;
      assert trace[..|first|] == earlier[..|first|];
    }

    // ---- The API server ----

    method Get(k: Key) returns (found: Option<AliasObject>, ok: bool)
      requires Valid() && PcOf(world, k).Idle?
      modifies this
      ensures Valid() && start == old(start) && |old(trace)| < |trace|
      ensures trace[..|old(trace)|] == old(trace) && trace[|trace| - 1] == Begin(k, ok)
      ensures forall i | |old(trace)| <= i < |trace| - 1 :: !ByOwn(trace[i], k)
      ensures Run(start, trace[..|trace| - 1]).store == world.store
      ensures Succeeded() == ok
      ensures !ok ==> PcOf(world, k).Idle?
      ensures ok ==> PcOf(world, k) == AfterGet(world.store, k)
      ensures ok ==> found == if k in world.store.objects then Some(world.store.objects[k]) else None
    {
      var t := Elapse(k);
      ok := t.outcome.fate.Done?;
      found := None;
      ghost var before := world;
      if ok {
        found := if k in world.store.objects then Some(world.store.objects[k]) else None;
        world := world.(pcs := world.pcs[k := AfterGet(world.store, k)]);
      } else {
        world := world.(pcs := world.pcs[k := Idle]);
      }
      ghost var earlier := trace;
      Record(Begin(k, ok), before);
      assert trace[..|trace| - 1] == earlier;
    }

    method Update(k: Key, copy: AliasObject) returns (ok: bool)
      requires Valid()
      requires
        var pc := PcOf(world, k);
        || (pc.AddingFinalizer? && copy == pc.obj.(finalizers := pc.obj.finalizers + {FINALIZER}))
        || (pc.RemovingFinalizer? && copy == pc.obj.(finalizers := pc.obj.finalizers - {FINALIZER}))
      modifies this
      ensures Stepped(k) && PcOf(world, k).Idle?
      ensures Succeeded() == ok
      ensures ok ==> if FINALIZER in copy.finalizers then HasFinalizer(world, k) else !HasFinalizer(world, k)
    {
      var o, _, odd := Await(k);
      var before := world;
      ok := o.fate.Done? && Current(world.store, k, copy);
      if o.Performed() {
        world := world.(store := Kube.Update(world.store, k, copy));
      }
      UpdateLeads(before, k, o, copy);
      Finish(k, o, before, old(trace));
    }

    method UpdateStatus(k: Key, copy: AliasObject) returns (ok: bool)
      requires Valid()
      requires
        var pc := PcOf(world, k);
        || (pc.SavingReady? && copy == pc.obj.(status := ReadyStatus(pc.obj, pc.uuid)))
        || (pc.SavingFailure? && copy == pc.obj.(status := FailedStatus(pc.obj, pc.reason, pc.message)))
      modifies this
      ensures Stepped(k) && PcOf(world, k).Idle?
      ensures Succeeded() == (ok && !old(PcOf(world, k)).SavingFailure?)
      ensures Wrote(k, copy) && (ok ==> Stored(k, copy.status))
    {
      var o, _, odd := Await(k);
      var before := world;
      ok := o.fate.Done? && Current(world.store, k, copy);
      if o.Performed() {
        world := world.(store := Kube.UpdateStatus(world.store, k, copy));
      }
      SaveLeads(before, k, o, copy);
      Finish(k, o, before, old(trace));
    }

    method Connect(k: Key) returns (ok: bool, reason: string, text: string)
      requires Valid() && PcOf(world, k).Connecting?
      modifies this
      ensures Stepped(k)
      ensures (ok <==> Usable(old(Upcoming()).setup)) && (!ok ==> Explains(reason, old(Upcoming()).setup))
      ensures
        var obj := old(PcOf(world, k)).obj;
        PcOf(world, k) ==
          if !ok then SavingFailure(obj, reason, text)
          else if obj.deleting then DeletingAlias(obj)
          else if obj.status.uuid != "" then Reading(obj)
          else LookingUp(obj)
    {
      var o, setup, _ := Await(k);
      var before := world;
      var problem := FindProblem(setup);
      ok, reason, text := problem.None?, problem.GetOr(""), o.text;
      Finish(k, o.(fate := if ok then Done else FailedBefore, reason := reason), before, old(trace));
    }

    // ---- The OPNsense box ----

    /** POST addItem; a name that another alias has is refused. */
    method AddItem(k: Key, p: AliasPayload) returns (reply: Reply<ResultResponse>)
      requires Valid() && PcOf(world, k).Creating? && p == EncodeAlias(SpecToAlias(PcOf(world, k).obj.spec))
      modifies this
      ensures Stepped(k)
      ensures
        var obj := old(PcOf(world, k)).obj;
        match reply
        case Failed(text) => PcOf(world, k) == SavingFailure(obj, "CreateFailed", text)
        case Answer(r, text) =>
          if r.result == "saved" && r.uuid != "" then
            && PcOf(world, k) == Reconfiguring(obj, r.uuid)
            && r.uuid in world.staged && DecodeAlias(world.staged[r.uuid]) == SpecToAlias(obj.spec)
          else
            PcOf(world, k) ==
              SavingFailure(obj, if r.result == "failed" then "ValidationFailed" else "CreateFailed", text)
    {
      var o, _, odd := Await(k);
      var before := world;
      var taken := NameTaken(world.staged, p.name, {});
      if o.Performed() {
        world := world.(used := world.used + {o.uuid});
        if !taken {
          world := world.(staged := world.staged[o.uuid := StoreNewAlias(p)]);
        }
      }
      reply := ReplyToAdd(o, taken, odd);
      AddLeads(before, k, o, odd);
      Finish(k, o, before, old(trace));
    }

    /** POST setItem */
    method SetItem(k: Key, uuid: Uuid, p: AliasPayload) returns (reply: Reply<ResultResponse>)
      requires Valid() && PcOf(world, k).Updating? && uuid == PcOf(world, k).uuid
      requires p == EncodeAlias(SpecToAlias(PcOf(world, k).obj.spec))
      modifies this
      ensures Stepped(k)
      ensures
        var obj := old(PcOf(world, k)).obj;
        match reply
        case Failed(text) => PcOf(world, k) == SavingFailure(obj, "UpdateFailed", text)
        case Answer(r, text) =>
          if r.result == "saved" then
            && PcOf(world, k) == Reconfiguring(obj, uuid)
            && uuid in world.staged && Carries(obj.spec, world.staged[uuid])
            && world.staged[uuid].name == obj.spec.name
          else
            PcOf(world, k) ==
              SavingFailure(obj,
                if r.result == "failed" && r.validations != map[] then "ValidationFailed" else "UpdateFailed", text)
      ensures
        reply.Answer? && reply.body.result == "failed" && reply.body.validations == map[] <==> ToldUnknown(uuid)
    {
      var o, _, odd := Await(k);
      var before := world;
      var known, taken := uuid in world.staged, NameTaken(world.staged, p.name, {uuid});
      if o.Performed() && known && !taken {
        world := world.(staged := world.staged[uuid := StoreOverAlias(world.staged[uuid], p)]);
      }
      reply := ReplyToSet(o, known, taken, odd);
      SetLeads(before, k, o, odd);
      Finish(k, o, before, old(trace));
    }

    /** POST delItem */
    method DelItem(k: Key, uuid: Uuid) returns (reply: Reply<ResultResponse>)
      requires Valid() && PcOf(world, k).DeletingAlias? && uuid == PcOf(world, k).obj.status.uuid
      modifies this
      ensures Stepped(k)
      ensures
        var obj := old(PcOf(world, k)).obj;
        if reply.Answer? && (reply.body.result == "deleted" || reply.body.result == "not found")
        then PcOf(world, k) == ReconfiguringDelete(obj) && uuid !in world.staged
        else PcOf(world, k) == SavingFailure(obj, "DeleteFailed", reply.text)
    {
      var o, _, odd := Await(k);
      var before := world;
      if o.Performed() {
        world := world.(staged := world.staged - {uuid});
      }
      reply := match o.fate
        case Done => Answer(ResultResponse(if uuid in before.staged then "deleted" else "not found", "", map[]), o.text)
        case Refused => Answer(ResultResponse("failed", "", o.validations), o.text)
        case _ => if odd.result == "not found" then Failed(o.text) else Broken(odd, "deleted", false, o.text);
      Finish(k, o, before, old(trace));
    }

    /** POST reconfigure */
    method Reconfigure(k: Key) returns (reply: Reply<string>)
      requires Valid() && (PcOf(world, k).Reconfiguring? || PcOf(world, k).ReconfiguringDelete?)
      modifies this
      ensures Stepped(k)
      ensures
        var pc := old(PcOf(world, k));
        if reply.Answer? && reply.body == "ok" then
          && world.live == world.staged
          && PcOf(world, k) == if pc.Reconfiguring? then SavingReady(pc.obj, pc.uuid) else RemovingFinalizer(pc.obj)
        else PcOf(world, k) == SavingFailure(pc.obj, "ReconfigureFailed", reply.text)
    {
      var o, _, odd := Await(k);
      var before := world;
      if o.Performed() {
        world := world.(live := world.staged);
      }
      reply :=
        if o.fate.Done? then Answer("ok", o.text)
        else if odd.result == "ok" then Failed(o.text)
        else Answer(odd.result, o.text);
      Finish(k, o, before, old(trace));
    }

    /** GET export of one uuid */
    method Export(k: Key, uuid: Uuid) returns (reply: Reply<ExportReply>)
      requires Valid()
      requires
        var pc := PcOf(world, k);
        (pc.Reading? && uuid == pc.obj.status.uuid) || (pc.ReadingFound? && uuid == pc.uuid)
      modifies this
      ensures Stepped(k) && Succeeded() && LastRead(k, old(PcOf(world, k)))
      ensures
        var pc := old(PcOf(world, k));
        match reply
        case Failed(text) => PcOf(world, k) == SavingFailure(pc.obj, "LookupFailed", text)
        case Answer(Unexpected, text) => PcOf(world, k) == SavingFailure(pc.obj, "LookupFailed", text)
        case Answer(NoAlias, text) =>
          && uuid !in world.staged
          && PcOf(world, k) == if pc.Reading? then LookingUp(pc.obj) else SavingFailure(pc.obj, "LookupFailed", text)
        case Answer(Exported(s), text) =>
          && uuid in world.staged && s == world.staged[uuid]
          && PcOf(world, k) == AfterRead(pc.obj, uuid, s, text)
    {
      var o, _, odd := Await(k);
      var before := world;
      if o.fate.Done? {
        reply := Answer(if uuid in world.staged then Exported(world.staged[uuid]) else NoAlias, o.text);
      } else {
        reply := if o.fate.Refused? then Answer(Unexpected, o.text) else Failed(o.text);
      }
      Finish(k, o, before, old(trace));
    }

    /** GET getAliasUUID: None is the empty array, and a malformed answer has an empty uuid. */
    method AliasUuid(k: Key, name: string) returns (reply: Reply<Option<Uuid>>)
      requires Valid() && Initial(start) && PcOf(world, k).LookingUp? && name == PcOf(world, k).obj.spec.name
      modifies this
      ensures Stepped(k)
      ensures
        var obj := old(PcOf(world, k)).obj;
        match reply
        case Failed(text) => PcOf(world, k) == SavingFailure(obj, "LookupFailed", text)
        case Answer(found, text) =>
          if found == Some("") then PcOf(world, k) == SavingFailure(obj, "LookupFailed", text)
          else
            && found == ByName(world.staged, name)
            && PcOf(world, k) == if found.None? then Creating(obj) else ReadingFound(obj, found.value)
    {
      var o, _, odd := Await(k);
      var before := world;
      if o.fate.Done? {
        reply := Answer(ByName(world.staged, name), o.text);
        ReachableInv(start, trace);
        NameLookupIsExact(world.staged, name);
      } else {
        reply := if o.fate.Refused? then Answer(Some(""), o.text) else Failed(o.text);
      }
      Finish(k, o, before, old(trace));
    }
  }
}
