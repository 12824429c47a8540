/**
 The world as the reconciler's calls meet it: the API server and the OPNsense box behind their endpoints,
 with everybody else acting between the calls. The cluster keeps the history of events, and every
 endpoint is proved to be one step of the state machine.
 */
module RuleCluster {
  import opened Text
  import opened Kube
  import opened Opnsense
  import opened Connection
  import opened Replies
  import opened RuleSpec
  import opened RuleDrift
  import opened RuleMachine

  /**
   What the environment does around one call: the events before it, its outcome, the select menus that the box
   shows, what there is to build a client from, and the answer to a call that fails with a malformed one.
   */
  datatype Turn = Turn(
    meanwhile: seq<Event>, outcome: Outcome, menu: map<string, string>, setup: Setup, odd: ResultResponse)

  /** The event belongs to the reconcile of `k`. */
  predicate ByOwn(e: Event, k: Key) {
    (e.Begin? || e.Call? || e.Crash?) && e.key == k
  }

  /** The history grows, and from the reconcile of `k` only by calls. */
  ghost predicate Continues(before: seq<Event>, after: seq<Event>, k: Key) {
    && |before| <= |after| && after[..|before|] == before
    && forall i | |before| <= i < |after| && ByOwn(after[i], k) :: after[i].Call?
  }

  /**
   A reconcile that ends with event `e` returns no error: the resource could be read, no failure was being
   reported, and the last write to the API server was performed, answered and not stale.
   */
  predicate Succeeds(w: World, e: Event) {
    match e
    case Begin(_, ok) => ok
    case Call(k, o) =>
      var pc := PcOf(w, k);
      if pc.SavingFailure? then false
      else if pc.AddingFinalizer? || pc.RemovingFinalizer? || pc.SavingReady?
      then o.fate.Done? && Current(w.store, k, pc.obj)
      else true
    case _ => true
  }

  /** Where a getRule reply leaves the reconcile that asked for it. */
  ghost function AfterReply(pc: Pc, k: Key, uuid: Uuid, reply: Reply<RuleReply>, staged: Config): Pc
    requires pc.Reading? || pc.ReadingHit? || pc.ReadingBack?
    requires reply.Answer? && reply.body.RuleData? ==> uuid in staged
  {
    if reply.Answer? && reply.body.RuleData? then
      if pc.ReadingBack? then SavingReady(pc.obj, uuid, Decode(staged[uuid]).sequence)
      else AfterResolve(k, pc.obj, uuid, Decode(staged[uuid]))
    else if reply.Answer? && reply.body.EmptyArray? && pc.Reading? then Searching(pc.obj)
    else SavingFailure(pc.obj, if pc.ReadingBack? then "GetFailed" else "LookupFailed", reply.text)
  }

  /** The box's answer to getRule. */
  function ReplyTo(o: Outcome, staged: Config, uuid: Uuid, menu: map<string, string>): Reply<RuleReply> {
    match o.fate
    case Done => Answer(if uuid in staged then RuleData(Render(staged[uuid], menu)) else EmptyArray, o.text)
    case Refused => Answer(NoRule, o.text)
    case _ => Failed(o.text)
  }

  function ReplyToAdd(o: Outcome, odd: ResultResponse): Reply<ResultResponse> {
    match o.fate
    case Done => Answer(ResultResponse("saved", o.uuid, map[]), o.text)
    case Refused => Answer(ResultResponse("failed", "", o.validations), o.text)
    case _ => Broken(odd, "saved", true, o.text)
  }

  /** setRule of an unknown uuid fails without validations. */
  function ReplyToSet(o: Outcome, staged: Config, uuid: Uuid, odd: ResultResponse): Reply<ResultResponse> {
    match o.fate
    case Done => Answer(ResultResponse(if uuid in staged then "saved" else "failed", "", map[]), o.text)
    case Refused => Answer(ResultResponse("failed", "", if uuid in staged then o.validations else map[]), o.text)
    case _ => Broken(odd, "saved", false, o.text)
  }

  lemma SaveLeads(w: World, k: Key, o: Outcome, copy: RuleObject)
    requires
      var pc := PcOf(w, k);
      || (pc.SavingReady? && copy == pc.obj.(status := ReadyStatus(pc.obj, pc.uuid, pc.sequence)))
      || (pc.SavingFailure? && copy == pc.obj.(status := FailedStatus(pc.obj, pc.reason, pc.message)))
    ensures
      var store := if o.Performed() then Kube.UpdateStatus(w.store, k, copy) else w.store;
      && Perform(w, k, o) == w.(store := store, pcs := w.pcs[k := Idle])
      && (o.Performed() && Current(w.store, k, copy) ==>
            k in store.objects && store.objects[k].status == copy.status)
  {
  }

  lemma UpdateLeads(w: World, k: Key, o: Outcome, copy: RuleObject)
    requires
      var pc := PcOf(w, k);
      || (pc.AddingFinalizer? && copy == pc.obj.(finalizers := pc.obj.finalizers + {FINALIZER}))
      || (pc.RemovingFinalizer? && copy == pc.obj.(finalizers := pc.obj.finalizers - {FINALIZER}))
    ensures
      var store := if o.Performed() then Kube.Update(w.store, k, copy) else w.store;
      var w' := w.(store := store, pcs := w.pcs[k := Idle]);
      && Perform(w, k, o) == w'
      && (o.Performed() && Current(w.store, k, copy) ==> (HasFinalizer(w', k) <==> FINALIZER in copy.finalizers))
  {
  }

  /** The status text may have any spaces around it. */
  function ReplyToApply(o: Outcome, status: string): Reply<string> {
    if o.fate.Done? then Answer(if TrimSpace(status) == "OK" then status else "OK\n\n", o.text)
    else if TrimSpace(status) == "OK" then Failed(o.text)
    else Answer(status, o.text)
  }

  lemma ApplyLeads(w: World, k: Key, o: Outcome, status: string)
    requires PcOf(w, k).Applying? || PcOf(w, k).ApplyingDelete?
    ensures
      var pc, reply := PcOf(w, k), ReplyToApply(o, status);
      if reply.Answer? && TrimSpace(reply.body) == "OK" then
        && o.Performed()
        && PcAfter(w, k, o) == if pc.Applying? then ReadingBack(pc.obj, pc.uuid) else RemovingFinalizer(pc.obj)
      else PcAfter(w, k, o) == SavingFailure(pc.obj, "ApplyFailed", reply.text)
  {
    ApplyStatusTrims();
  }

  lemma AddLeads(w: World, k: Key, o: Outcome, odd: ResultResponse)
    requires Enabled(w, Call(k, o)) && PcOf(w, k).Creating?
    ensures
      Perform(w, k, o) ==
        w.(staged := StagedAfter(w, k, o), used := UsedAfter(w, k, o), pcs := w.pcs[k := PcAfter(w, k, o)])
    ensures
      var obj := PcOf(w, k).obj;
      match ReplyToAdd(o, odd)
      case Failed(text) => PcAfter(w, k, o) == SavingFailure(obj, "CreateFailed", text)
      case Answer(r, text) =>
        if r.result == "saved" && r.uuid != "" then
          && PcAfter(w, k, o) == Applying(obj, r.uuid) && r.uuid == o.uuid
          && r.uuid in StagedAfter(w, k, o) && Agrees(obj.spec, k, StagedAfter(w, k, o)[r.uuid])
        else
          PcAfter(w, k, o) ==
            SavingFailure(obj, if r.result == "failed" then "ValidationFailed" else "CreateFailed", text)
  {
    CreateConverges(PcOf(w, k).obj.spec, k, o.sequence);
  }

  lemma SetLeads(w: World, k: Key, o: Outcome, odd: ResultResponse)
    requires PcOf(w, k).Updating?
    ensures Perform(w, k, o) == w.(staged := StagedAfter(w, k, o), pcs := w.pcs[k := PcAfter(w, k, o)])
    ensures
      var obj, uuid := PcOf(w, k).obj, PcOf(w, k).uuid;
      match ReplyToSet(o, w.staged, uuid, odd)
      case Failed(text) => PcAfter(w, k, o) == SavingFailure(obj, "UpdateFailed", text)
      case Answer(r, text) =>
        if r.result == "saved" then
          && PcAfter(w, k, o) == Applying(obj, uuid)
          && uuid in StagedAfter(w, k, o) && Agrees(obj.spec, k, StagedAfter(w, k, o)[uuid])
        else if r.result == "failed" then
          && StagedAfter(w, k, o) == w.staged
          && PcAfter(w, k, o) ==
               SavingFailure(obj, if r.validations == map[] then "NotFound" else "ValidationFailed", text)
          && (r.validations == map[] <==> AnsweredUnknown(w.staged, uuid, o))
        else PcAfter(w, k, o) == SavingFailure(obj, "UpdateFailed", text) && !o.fate.Done? && !o.fate.Refused?
  {
    if PcOf(w, k).uuid in w.staged {
      UpdateConverges(PcOf(w, k).obj.spec, k, w.staged[PcOf(w, k).uuid]);
    }
  }

  lemma ReplyLeads(w: World, k: Key, uuid: Uuid, o: Outcome, menu: map<string, string>)
    requires
      var pc := PcOf(w, k);
      || (pc.Reading? && uuid == pc.obj.status.uuid)
      || ((pc.ReadingHit? || pc.ReadingBack?) && uuid == pc.uuid)
    ensures Perform(w, k, o) == w.(pcs := w.pcs[k := PcAfter(w, k, o)])
    ensures PcAfter(w, k, o) == AfterReply(PcOf(w, k), k, uuid, ReplyTo(o, w.staged, uuid, menu), w.staged)
  {
  }

  class Cluster {
    var world: World
    var script: seq<Turn>
    ghost var start: World
    ghost var trace: seq<Event>

    ghost predicate Valid()
      reads this
    {
      world == Run(start, trace)
    }

    /** The world has moved on along a run of the state machine in which the reconcile of `k` only made calls. */
    twostate predicate Stepped(k: Key)
      reads this
    {
      Valid() && start == old(start) && Continues(old(trace), trace, k)
    }

    /** The last event of the history ends its reconcile without an error. */
    ghost predicate Succeeded()
      reads this
    {
      trace != [] && Succeeds(Run(start, trace[..|trace| - 1]), trace[|trace| - 1])
    }

    /** The last call took the program counter of `k` from `pc` on and changed nothing in the API server. */
    ghost predicate LastRead(k: Key, pc: Pc)
      reads this
    {
      && trace != []
      && var before := Run(start, trace[..|trace| - 1]);
      PcOf(before, k) == pc && before.store == world.store
    }

    /** The last call tried to store the status of `copy`, and that is all that can have changed in the API server. */
    ghost predicate Wrote(k: Key, copy: RuleObject)
      reads this
    {
      && trace != []
      && var before := Run(start, trace[..|trace| - 1]).store;
      world.store == before || world.store == Kube.UpdateStatus(before, k, copy)
    }

    ghost predicate Stored(k: Key, status: Status)
      reads this
    {
      k in world.store.objects && world.store.objects[k].status == status
    }

    /** The last call was a setRule on `uuid` that the box answered with a failure without validations. */
    ghost predicate ToldUnknown(uuid: Uuid)
      reads this
    {
      trace != [] && trace[|trace| - 1].Call? && AnsweredUnknown(world.staged, uuid, trace[|trace| - 1].outcome)
    }

    /** What the environment has in store for the next call; when it has nothing left, calls fail. */
    function Upcoming(): Turn
      reads this
    {
      if script != [] then script[0]
      else Turn([], Outcome(FailedBefore, "", "", map[], "", ""), map[], Setup(None, None, false),
                ResultResponse("", "", map[]))
    }

    constructor (w: World, turns: seq<Turn>)
      ensures Valid() && world == w && start == w && trace == []
    {
      world, script := w, turns;
      start, trace := w, [];
    }

    /** Appends an event that has just taken effect. */
    ghost method Record(e: Event, before: World)
      requires before == Run(start, trace) && world == Next(before, e)
      modifies this`trace
      ensures Valid() && trace == old(trace) + [e] && Succeeded() == Succeeds(before, e)
    {
      assert (trace + [e])[..|trace + [e]| - 1] == trace;
      trace := trace + [e];
    }

    /** Everybody else acts; the reconcile of `k` itself waits. Events that are not possible do not happen. */
    method Elapse(k: Key) returns (t: Turn)
      requires Valid()
      modifies this
      ensures Stepped(k) && PcOf(world, k) == old(PcOf(world, k))
      ensures forall i | |old(trace)| <= i < |trace| :: !ByOwn(trace[i], k)
      ensures t == old(Upcoming())
    {
      t := Upcoming();
      if script != [] {
        script := script[1..];
      }
      for i := 0 to |t.meanwhile|
        invariant Stepped(k) && PcOf(world, k) == old(PcOf(world, k))
        invariant forall i | |old(trace)| <= i < |trace| :: !ByOwn(trace[i], k)
      {
        var e := t.meanwhile[i];
        if !ByOwn(e, k) {
          ghost var before := world;
          OthersKeepPc(world, e, k);
          world := Next(world, e);
          Record(e, before);
        }
      }
    }

    /** As Elapse, up to a call that is about to be made. A uuid that was in use before is never handed out. */
    method Await(k: Key) returns (t: Turn)
      requires Valid() && !PcOf(world, k).Idle?
      modifies this
      ensures Stepped(k) && PcOf(world, k) == old(PcOf(world, k))
      ensures Enabled(world, Call(k, t.outcome)) && t.setup == old(Upcoming()).setup
    {
      t := Elapse(k);
      if t.outcome.uuid == "" || t.outcome.uuid in world.used {
        t := t.(outcome := t.outcome.(fate := FailedBefore));
      }
    }

    /** The pending call of `k` has had its effect on `world`; the bookkeeping follows. The history began as `first`. */
    method Finish(k: Key, o: Outcome, before: World, ghost first: seq<Event>)
      requires before == Run(start, trace) && Enabled(before, Call(k, o)) && Continues(first, trace, k)
      requires world == Perform(before, k, o).(pcs := before.pcs)
      modifies this`world, this`trace
      ensures Valid() && world == Perform(before, k, o) && trace == old(trace) + [Call(k, o)]
      ensures Continues(first, trace, k)
      ensures Succeeded() == Succeeds(before, Call(k, o)) && Run(start, trace[..|trace| - 1]) == before
    {
      world := world.(pcs := world.pcs[k := PcAfter(before, k, o)]);
      ghost var earlier := trace;
      Record(Call(k, o), before);
      assert trace[..|trace| - 1] == earlier;
      assert trace[..|first|] == earlier[..|first|];
    }

    // ---- The API server ----

    /** client.Get; None without an error means not found. */
    method Get(k: Key) returns (found: Option<RuleObject>, ok: bool)
      requires Valid() && PcOf(world, k).Idle?
      modifies this
      ensures Valid() && start == old(start) && |old(trace)| < |trace|
      ensures trace[..|old(trace)|] == old(trace) && trace[|trace| - 1] == Begin(k, ok)
      ensures forall i | |old(trace)| <= i < |trace| - 1 :: !ByOwn(trace[i], k)
      ensures Run(start, trace[..|trace| - 1]).store == world.store
      ensures Succeeded() == ok
      ensures !ok ==> PcOf(world, k).Idle?
      ensures ok ==> PcOf(world, k) == AfterGet(world.store, k)
      ensures ok ==> found == if k in world.store.objects then Some(world.store.objects[k]) else None
    {
      var t := Elapse(k);
      ok := t.outcome.fate.Done?;
      found := None;
      ghost var before := world;
      if ok {
        found := if k in world.store.objects then Some(world.store.objects[k]) else None;
        world := world.(pcs := world.pcs[k := AfterGet(world.store, k)]);
      } else {
        world := world.(pcs := world.pcs[k := Idle]);
      }
      ghost var earlier := trace;
      Record(Begin(k, ok), before);
      assert trace[..|trace| - 1] == earlier;
    }

    /** client.Update of the finalizers. */
    method Update(k: Key, copy: RuleObject) returns (ok: bool)
      requires Valid()
      requires
        var pc := PcOf(world, k);
        || (pc.AddingFinalizer? && copy == pc.obj.(finalizers := pc.obj.finalizers + {FINALIZER}))
        || (pc.RemovingFinalizer? && copy == pc.obj.(finalizers := pc.obj.finalizers - {FINALIZER}))
      modifies this
      ensures Stepped(k) && PcOf(world, k).Idle?
      ensures Succeeded() == ok
      ensures ok ==> if FINALIZER in copy.finalizers then HasFinalizer(world, k) else !HasFinalizer(world, k)
    {
      var t := Await(k);
      var before := world;
      ok := t.outcome.fate.Done? && Current(world.store, k, copy);
      if t.outcome.Performed() {
        world := world.(store := Kube.Update(world.store, k, copy));
      }
      UpdateLeads(before, k, t.outcome, copy);
      Finish(k, t.outcome, before, old(trace));
    }

    /** client.Status().Update. */
    method UpdateStatus(k: Key, copy: RuleObject) returns (ok: bool)
      requires Valid()
      requires
        var pc := PcOf(world, k);
        || (pc.SavingReady? && copy == pc.obj.(status := ReadyStatus(pc.obj, pc.uuid, pc.sequence)))
        || (pc.SavingFailure? && copy == pc.obj.(status := FailedStatus(pc.obj, pc.reason, pc.message)))
      modifies this
      ensures Stepped(k) && PcOf(world, k).Idle?
      ensures Succeeded() == (ok && !old(PcOf(world, k)).SavingFailure?)
      ensures Wrote(k, copy) && (ok ==> Stored(k, copy.status))
    {
      var t := Await(k);
      var before := world;
      ok := t.outcome.fate.Done? && Current(world.store, k, copy);
      if t.outcome.Performed() {
        world := world.(store := Kube.UpdateStatus(world.store, k, copy));
      }
      SaveLeads(before, k, t.outcome, copy);
      Finish(k, t.outcome, before, old(trace));
    }

    /** Fetches the connection, its credentials and its TLS settings. */
    method Connect(k: Key) returns (ok: bool, reason: string, text: string)
      requires Valid() && PcOf(world, k).Connecting?
      modifies this
      ensures Stepped(k)
      ensures (ok <==> Usable(old(Upcoming()).setup)) && (!ok ==> Explains(reason, old(Upcoming()).setup))
      ensures
        var obj := old(PcOf(world, k)).obj;
        PcOf(world, k) ==
          if !ok then SavingFailure(obj, reason, text)
          else if obj.deleting then DeletingRule(obj)
          else if obj.status.uuid != "" then Reading(obj)
          else Searching(obj)
    {
      var t := Await(k);
      var before := world;
      var problem := FindProblem(t.setup);
      ok, reason, text := problem.None?, problem.GetOr(""), t.outcome.text;
      Finish(k, t.outcome.(fate := if ok then Done else FailedBefore, reason := reason), before, old(trace));
    }

    // ---- The OPNsense box ----

    /** POST addRule */
    method AddRule(k: Key, p: RulePayload) returns (reply: Reply<ResultResponse>)
      requires Valid() && PcOf(world, k).Creating?
      requires p == EncodeFirewallRule(SpecToRule(PcOf(world, k).obj.spec, k))
      modifies this
      ensures Stepped(k)
      ensures
        var obj := old(PcOf(world, k)).obj;
        match reply
        case Failed(text) => PcOf(world, k) == SavingFailure(obj, "CreateFailed", text)
        case Answer(r, text) =>
          if r.result == "saved" && r.uuid != "" then
            && PcOf(world, k) == Applying(obj, r.uuid)
            && r.uuid in world.staged && Agrees(obj.spec, k, world.staged[r.uuid])
          else
            PcOf(world, k) ==
              SavingFailure(obj, if r.result == "failed" then "ValidationFailed" else "CreateFailed", text)
    {
      var t := Await(k);
      var o := t.outcome;
      var before := world;
      if o.Performed() {
        world := world.(staged := world.staged[o.uuid := StoreNew(p, o.sequence)], used := world.used + {o.uuid});
      }
      reply := ReplyToAdd(o, t.odd);
      AddLeads(before, k, o, t.odd);
      Finish(k, o, before, old(trace));
    }

    /** POST setRule; an unknown uuid is answered with a failure that lists no validations. */
    method SetRule(k: Key, uuid: Uuid, p: RulePayload) returns (reply: Reply<ResultResponse>)
      requires Valid() && PcOf(world, k).Updating? && uuid == PcOf(world, k).uuid
      requires p == EncodeFirewallRule(SpecToRule(PcOf(world, k).obj.spec, k))
      modifies this
      ensures Stepped(k)
      ensures
        var obj := old(PcOf(world, k)).obj;
        match reply
        case Failed(text) => PcOf(world, k) == SavingFailure(obj, "UpdateFailed", text)
        case Answer(r, text) =>
          if r.result == "saved" then
            && PcOf(world, k) == Applying(obj, uuid)
            && uuid in world.staged && Agrees(obj.spec, k, world.staged[uuid])
          else
            PcOf(world, k) ==
              SavingFailure(obj,
                if r.result != "failed" then "UpdateFailed"
                else if r.validations == map[] then "NotFound" else "ValidationFailed", text)
      ensures
        reply.Answer? && reply.body.result == "failed" && reply.body.validations == map[] <==> ToldUnknown(uuid)
      ensures uuid !in world.staged && reply.Answer? && reply.body.result == "failed" ==> ToldUnknown(uuid)
    {
      var t := Await(k);
      var o := t.outcome;
      var before := world;
      if o.Performed() && uuid in world.staged {
        world := world.(staged := world.staged[uuid := StoreOver(world.staged[uuid], p)]);
      }
      reply := ReplyToSet(o, before.staged, uuid, t.odd);
      SetLeads(before, k, o, t.odd);
      Finish(k, o, before, old(trace));
    }

    /** POST delRule */
    method DelRule(k: Key, uuid: Uuid) returns (reply: Reply<string>)
      requires Valid() && PcOf(world, k).DeletingRule? && uuid == PcOf(world, k).obj.status.uuid
      modifies this
      ensures Stepped(k)
      ensures
        var obj := old(PcOf(world, k)).obj;
        if reply.Answer? && (reply.body == "deleted" || reply.body == "not found")
        then PcOf(world, k) == ApplyingDelete(obj) && uuid !in world.staged
        else PcOf(world, k) == SavingFailure(obj, "DeleteFailed", reply.text)
    {
      var t := Await(k);
      var o := t.outcome;
      var before := world;
      if o.Performed() {
        world := world.(staged := world.staged - {uuid});
      }
      reply := match o.fate
        case Done => Answer(if uuid in before.staged then "deleted" else "not found", o.text)
        case _ =>
          if t.odd.result in {"deleted", "not found"} then Failed(o.text) else Answer(t.odd.result, o.text);
      Finish(k, o, before, old(trace));
    }

    /** POST apply */
    method Apply(k: Key) returns (reply: Reply<string>)
      requires Valid() && (PcOf(world, k).Applying? || PcOf(world, k).ApplyingDelete?)
      modifies this
      ensures Stepped(k)
      ensures
        var pc := old(PcOf(world, k));
        if reply.Answer? && TrimSpace(reply.body) == "OK" then
          && world.live == world.staged
          && PcOf(world, k) == if pc.Applying? then ReadingBack(pc.obj, pc.uuid) else RemovingFinalizer(pc.obj)
        else PcOf(world, k) == SavingFailure(pc.obj, "ApplyFailed", reply.text)
    {
      var t := Await(k);
      var o := t.outcome;
      var before := world;
      if o.Performed() {
        world := world.(live := world.staged);
      }
      reply := ReplyToApply(o, t.odd.result);
      ApplyLeads(before, k, o, t.odd.result);
      Finish(k, o, before, old(trace));
    }

    /** GET getRule */
    method GetRule(k: Key, uuid: Uuid) returns (reply: Reply<RuleReply>)
      requires Valid()
      requires
        var pc := PcOf(world, k);
        || (pc.Reading? && uuid == pc.obj.status.uuid)
        || ((pc.ReadingHit? || pc.ReadingBack?) && uuid == pc.uuid)
      modifies this
      ensures Stepped(k)
      ensures reply.Answer? && reply.body.EmptyArray? ==> uuid !in world.staged
      ensures reply.Answer? && reply.body.RuleData? ==>
                uuid in world.staged && Displays(reply.body.rule, world.staged[uuid])
      ensures PcOf(world, k) == AfterReply(old(PcOf(world, k)), k, uuid, reply, world.staged)
      ensures Succeeded() && LastRead(k, old(PcOf(world, k)))
    {
      var t := Await(k);
      var o := t.outcome;
      var before := world;
      reply := ReplyTo(o, world.staged, uuid, t.menu);
      ReplyLeads(world, k, uuid, o, t.menu);
      Finish(k, o, before, old(trace));
    }

    /** GET searchRule: one row for each rule whose description matches the phrase. */
    method SearchRule(k: Key, phrase: string) returns (reply: Reply<seq<Uuid>>)
      requires Valid() && PcOf(world, k).Searching? && phrase == Phrase(k)
      modifies this
      ensures Stepped(k)
      ensures
        var obj := old(PcOf(world, k)).obj;
        match reply
        case Failed(text) => PcOf(world, k) == SavingFailure(obj, "LookupFailed", text)
        case Answer(rows, text) =>
          && (forall u :: u in rows <==> u in Hits(world.staged, k))
          && |rows| == |Hits(world.staged, k)|
          && PcOf(world, k) == AfterSearch(obj, Hits(world.staged, k), text)
    {
      var t := Await(k);
      var o := t.outcome;
      var before := world;
      if o.fate.Done? {
        var rows := ListRows(Hits(world.staged, k));
        reply := Answer(rows, o.text);
      } else {
        reply := Failed(o.text);
      }
      Finish(k, o, before, old(trace));
    }
  }

  /** The rows of a search reply, in any order. */
  method ListRows(hits: set<Uuid>) returns (rows: seq<Uuid>)
    ensures (forall u :: u in rows <==> u in hits) && |rows| == |hits|
  {
    rows := [];
    var rest := hits;
    while rest != {}
      invariant rest <= hits && forall u :: u in rows <==> u in hits - rest
      invariant |rows| + |rest| == |hits|
      decreases rest
    {
      var u :| u in rest;
      rows := rows + [u];
      rest := rest - {u};
    }
  }

  /** The status text of a successful apply, and of one that reports nothing. */
  lemma ApplyStatusTrims()
    ensures TrimSpace("OK\n\n") == "OK" && TrimSpace("") == ""
  {
    assert TrimLeft("OK\n\n") == "OK\n\n";
    assert "OK\n\n"[..3] == "OK\n" && "OK\n"[..2] == "OK";
    assert TrimRight("OK\n") == TrimRight("OK") == "OK";
  }

  lemma OthersKeepPc(w: World, e: Event, k: Key)
    requires !ByOwn(e, k)
    ensures PcOf(Next(w, e), k) == PcOf(w, k)
  {
  }
}
