/**
 The reconcile protocol as a state machine: many FirewallRule resources, one program counter for each,
 one OPNsense box, and an environment that may fail, delay or cut every call. Each event is one atomic
 API call of one reconcile, or one action of a user, another controller or an OPNsense administrator.
 */
module RuleMachine {
  import opened Text
  import opened Kube
  import opened Opnsense
  import opened RuleSpec

  type Config = map<Uuid, StoredRule>

  /**
   Where a reconcile stands: the constructor names the call it is about to make, `obj` is the copy of
   the resource it read at its start, and the other fields are the Go code's local variables.
   */
  datatype Pc =
    | Idle
    | AddingFinalizer(obj: RuleObject)
    | Connecting(obj: RuleObject)
    | Reading(obj: RuleObject)
    | Searching(obj: RuleObject)
    | ReadingHit(obj: RuleObject, uuid: Uuid)
    | Creating(obj: RuleObject)
    | Updating(obj: RuleObject, uuid: Uuid)
    | Applying(obj: RuleObject, uuid: Uuid)
    | ReadingBack(obj: RuleObject, uuid: Uuid)
    | SavingReady(obj: RuleObject, uuid: Uuid, sequence: string)
    | SavingFailure(obj: RuleObject, reason: string, message: string)
    | DeletingRule(obj: RuleObject)
    | ApplyingDelete(obj: RuleObject)
    | RemovingFinalizer(obj: RuleObject)

  /** `used` holds every uuid the box has ever handed out. */
  datatype World = World(
    store: Store<Spec, Status>, staged: Config, live: Config, used: set<Uuid>, pcs: map<Key, Pc>)

  /**
   How the environment treats a call. Done: performed and answered. Refused: answered with a refusal and
   not performed. FailedBefore, FailedAfter: an error is seen, and the call was not, or was, performed.
   */
  datatype Fate = Done | Refused | FailedBefore | FailedAfter

  /**
   `uuid` and `sequence` are what addRule hands out, `validations` what a refused write is answered with,
   `reason` why no OPNsense client can be built, and `text` the error text of a failure.
   */
  datatype Outcome = Outcome(
    fate: Fate, uuid: Uuid, sequence: string, validations: map<string, string>, reason: string, text: string)
  {
    predicate Performed() { fate.Done? || fate.FailedAfter? }
  }

  /** A call that succeeds; `uuid` and `sequence` matter to addRule only. */
  function Success(uuid: Uuid, sequence: string): Outcome {
    Outcome(Done, uuid, sequence, map[], "", "")
  }

  datatype Event =
    | Begin(key: Key, ok: bool)
    | Call(key: Key, outcome: Outcome)
    | Crash(key: Key)
    | UserCreate(key: Key, spec: Spec, finalizers: set<string>)
    | UserEdit(key: Key, spec: Spec)
    | UserDelete(key: Key)
    | OthersFinalize(key: Key, finalizers: set<string>)
    | AdminAdd(uuid: Uuid, rule: StoredRule)
    | AdminSet(uuid: Uuid, rule: StoredRule)
    | AdminDelete(uuid: Uuid)
    | AdminApply

  function PcOf(w: World, k: Key): Pc {
    if k in w.pcs then w.pcs[k] else Idle
  }

  predicate HasFinalizer(w: World, k: Key) {
    k in w.store.objects && FINALIZER in w.store.objects[k].finalizers
  }

  // ---- The search ----

  function Hits(staged: Config, k: Key): set<Uuid> {
    set u | u in staged && Matches(staged[u].description, Phrase(k))
  }

  // ---- One reconcile, call by call ----

  /** What Reconcile decides right after reading the resource. */
  function AfterGet(st: Store<Spec, Status>, k: Key): Pc {
    if k !in st.objects then Idle else
    var obj := st.objects[k];
    if obj.deleting then
      if FINALIZER !in obj.finalizers then Idle
      else if obj.status.uuid == "" then RemovingFinalizer(obj)
      else Connecting(obj)
    else if FINALIZER !in obj.finalizers then AddingFinalizer(obj)
    else Connecting(obj)
  }

  /** What Reconcile decides once it holds the external rule. */
  function AfterResolve(k: Key, obj: RuleObject, uuid: Uuid, existing: FirewallRule): Pc {
    if RuleNeedsUpdate(obj.spec, k, existing) then Updating(obj, uuid)
    else if ReflectsCurrent(obj, uuid, existing.sequence) then Idle
    else SavingReady(obj, uuid, existing.sequence)
  }

  function AfterSearch(obj: RuleObject, hits: set<Uuid>, text: string): Pc {
    if |hits| == 0 then Creating(obj)
    else if |hits| == 1 then ReadingHit(obj, TheOnly(hits))
    else SavingFailure(obj, "LookupFailed", text)
  }

  /** Reason under which a refused or failed addRule or setRule is reported. */
  function WriteFailure(o: Outcome, otherwise: string): string {
    if o.fate.Refused? then "ValidationFailed" else otherwise
  }

  /** setRule is answered with a failure that lists no validations; an unknown uuid always is. */
  predicate AnsweredUnknown(staged: Config, u: Uuid, o: Outcome) {
    (o.fate.Done? || o.fate.Refused?) && (u !in staged || (o.fate.Refused? && o.validations == map[]))
  }

  /** The next program counter of `k` when its pending call meets outcome `o` in world `w`. */
  function PcAfter(w: World, k: Key, o: Outcome): Pc {
    var done := o.fate.Done?;
    match PcOf(w, k)
    case Idle => Idle
    case AddingFinalizer(_) => Idle
    case Connecting(obj) =>
      if !done then SavingFailure(obj, o.reason, o.text)
      else if obj.deleting then DeletingRule(obj)
      else if obj.status.uuid != "" then Reading(obj)
      else Searching(obj)
    case Reading(obj) =>
      if !done then SavingFailure(obj, "LookupFailed", o.text)
      else if obj.status.uuid !in w.staged then Searching(obj)
      else AfterResolve(k, obj, obj.status.uuid, Decode(w.staged[obj.status.uuid]))
    case Searching(obj) =>
      if !done then SavingFailure(obj, "LookupFailed", o.text) else AfterSearch(obj, Hits(w.staged, k), o.text)
    case ReadingHit(obj, u) =>
      if !done || u !in w.staged then SavingFailure(obj, "LookupFailed", o.text)
      else AfterResolve(k, obj, u, Decode(w.staged[u]))
    case Creating(obj) =>
      if done then Applying(obj, o.uuid) else SavingFailure(obj, WriteFailure(o, "CreateFailed"), o.text)
    case Updating(obj, u) =>
      if done && u in w.staged then Applying(obj, u)
      else if AnsweredUnknown(w.staged, u, o) then SavingFailure(obj, "NotFound", o.text)
      else SavingFailure(obj, WriteFailure(o, "UpdateFailed"), o.text)
    case Applying(obj, u) =>
      if done then ReadingBack(obj, u) else SavingFailure(obj, "ApplyFailed", o.text)
    case ReadingBack(obj, u) =>
      if done && u in w.staged then SavingReady(obj, u, Decode(w.staged[u]).sequence)
      else SavingFailure(obj, "GetFailed", o.text)
    case SavingReady(_, _, _) => Idle
    case SavingFailure(_, _, _) => Idle
    case DeletingRule(obj) =>
      if done then ApplyingDelete(obj) else SavingFailure(obj, "DeleteFailed", o.text)
    case ApplyingDelete(obj) =>
      if done then RemovingFinalizer(obj) else SavingFailure(obj, "ApplyFailed", o.text)
    case RemovingFinalizer(_) => Idle
  }

  function StagedAfter(w: World, k: Key, o: Outcome): Config {
    if !o.Performed() then w.staged else
    match PcOf(w, k)
    case Creating(obj) => w.staged[o.uuid := StoreNew(EncodeFirewallRule(SpecToRule(obj.spec, k)), o.sequence)]
    case Updating(obj, u) =>
      if u !in w.staged then w.staged
      else w.staged[u := StoreOver(w.staged[u], EncodeFirewallRule(SpecToRule(obj.spec, k)))]
    case DeletingRule(obj) => w.staged - {obj.status.uuid}
    case _ => w.staged
  }

  function LiveAfter(w: World, k: Key, o: Outcome): Config {
    var pc := PcOf(w, k);
    if o.Performed() && (pc.Applying? || pc.ApplyingDelete?) then w.staged else w.live
  }

  function UsedAfter(w: World, k: Key, o: Outcome): set<Uuid> {
    if o.Performed() && PcOf(w, k).Creating? then w.used + {o.uuid} else w.used
  }

  function StoreAfter(w: World, k: Key, o: Outcome): Store<Spec, Status> {
    if !o.Performed() then w.store else
    match PcOf(w, k)
    case AddingFinalizer(obj) => Update(w.store, k, obj.(finalizers := obj.finalizers + {FINALIZER}))
    case RemovingFinalizer(obj) => Update(w.store, k, obj.(finalizers := obj.finalizers - {FINALIZER}))
    case SavingReady(obj, u, sequence) => UpdateStatus(w.store, k, obj.(status := ReadyStatus(obj, u, sequence)))
    case SavingFailure(obj, reason, message) =>
      UpdateStatus(w.store, k, obj.(status := FailedStatus(obj, reason, message)))
    case _ => w.store
  }

  function Perform(w: World, k: Key, o: Outcome): World {
    World(StoreAfter(w, k, o), StagedAfter(w, k, o), LiveAfter(w, k, o), UsedAfter(w, k, o),
          w.pcs[k := PcAfter(w, k, o)])
  }

  // ---- Events and runs ----

  /** A description an administrator may write: it does not end in a managed suffix. */
  predicate Unmanaged(description: string) {
    !(EndsWith(description, "]") && Contains(description, MARKER))
  }

  /** The assumptions on the environment. */
  predicate Enabled(w: World, e: Event) {
    match e
    case Begin(k, _) => PcOf(w, k).Idle?
    case Call(k, o) =>
      !PcOf(w, k).Idle? && (PcOf(w, k).Creating? && o.Performed() ==> o.uuid != "" && o.uuid !in w.used)
    case Crash(_) => true
    case UserCreate(k, _, _) => ValidKey(k) && k !in w.store.objects
    case UserEdit(k, _) => k in w.store.objects
    case UserDelete(k) => k in w.store.objects
    case OthersFinalize(k, _) => k in w.store.objects
    case AdminAdd(u, r) => u != "" && u !in w.used && Unmanaged(r.description)
    case AdminSet(u, r) => u in w.staged && (r.description == w.staged[u].description || Unmanaged(r.description))
    case AdminDelete(_) => true
    case AdminApply => true
  }

  function Act(w: World, e: Event): World
    requires Enabled(w, e)
  {
    match e
    case Begin(k, ok) => w.(pcs := w.pcs[k := if ok then AfterGet(w.store, k) else Idle])
    case Call(k, o) => Perform(w, k, o)
    case Crash(k) => w.(pcs := w.pcs[k := Idle])
    case UserCreate(k, spec, finalizers) => w.(store := Create(w.store, k, spec, Status("", "", 0, None), finalizers))
    case UserEdit(k, spec) => w.(store := Edit(w.store, k, spec))
    case UserDelete(k) => w.(store := Delete(w.store, k))
    case OthersFinalize(k, finalizers) => w.(store := OtherFinalizers(w.store, k, FINALIZER, finalizers))
    case AdminAdd(u, r) => w.(staged := w.staged[u := r], used := w.used + {u})
    case AdminSet(u, r) => w.(staged := w.staged[u := r])
    case AdminDelete(u) => w.(staged := w.staged - {u})
    case AdminApply => w.(live := w.staged)
  }

  /** An event that the assumptions rule out in this world does not happen. */
  function Next(w: World, e: Event): World {
    if Enabled(w, e) then Act(w, e) else w
  }

  function Run(w: World, es: seq<Event>): World {
    if es == [] then w else Next(Run(w, es[..|es| - 1]), es[|es| - 1])
  }

  /** Before the operator's first start: no resources, and a box configured only by its administrator. */
  predicate Initial(w: World) {
    && w.store.objects == map[] && w.pcs == map[]
    && w.staged.Keys <= w.used && w.live.Keys <= w.used && "" !in w.used
    && forall u | u in w.staged :: Unmanaged(w.staged[u].description)
  }

  lemma {:induction false} RunConcat(w: World, es: seq<Event>, fs: seq<Event>)
    ensures Run(w, es + fs) == Run(Run(w, es), fs)
  {
    if fs == [] {
      assert es + fs == es;
    } else {
      assert (es + fs)[..|es + fs| - 1] == es + fs[..|fs| - 1];
      RunConcat(w, es, fs[..|fs| - 1]);
    }
  }
}
