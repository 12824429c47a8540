/**
 The alias reconcile protocol as a state machine. It is the sibling of the rule protocol: the lookup goes
 by the alias's own name, which the box keeps unique, and nothing is read back after a write.
 */
module AliasMachine {
  import opened Kube
  import opened Opnsense
  import opened AliasSpec

  type Config = map<Uuid, StoredAlias>

  datatype Pc =
    | Idle
    | AddingFinalizer(obj: AliasObject)
    | Connecting(obj: AliasObject)
    | Reading(obj: AliasObject)
    | LookingUp(obj: AliasObject)
    | ReadingFound(obj: AliasObject, uuid: Uuid)
    | Creating(obj: AliasObject)
    | Updating(obj: AliasObject, uuid: Uuid)
    | Reconfiguring(obj: AliasObject, uuid: Uuid)
    | SavingReady(obj: AliasObject, uuid: Uuid)
    | SavingFailure(obj: AliasObject, reason: string, message: string)
    | DeletingAlias(obj: AliasObject)
    | ReconfiguringDelete(obj: AliasObject)
    | RemovingFinalizer(obj: AliasObject)

  datatype World = World(
    store: Store<Spec, Status>, staged: Config, live: Config, used: set<Uuid>, pcs: map<Key, Pc>)

  datatype Fate = Done | Refused | FailedBefore | FailedAfter

  datatype Outcome = Outcome(
    fate: Fate, uuid: Uuid, validations: map<string, string>, reason: string, text: string)
  {
    predicate Performed() { fate.Done? || fate.FailedAfter? }
  }

  function Success(uuid: Uuid): Outcome {
    Outcome(Done, uuid, map[], "", "")
  }

  datatype Event =
    | Begin(key: Key, ok: bool)
    | Call(key: Key, outcome: Outcome)
    | Crash(key: Key)
    | UserCreate(key: Key, spec: Spec, finalizers: set<string>)
    | UserEdit(key: Key, spec: Spec)
    | UserDelete(key: Key)
    | OthersFinalize(key: Key, finalizers: set<string>)
    | AdminAdd(uuid: Uuid, alias: StoredAlias)
    | AdminSet(uuid: Uuid, alias: StoredAlias)
    | AdminDelete(uuid: Uuid)
    | AdminApply

  function PcOf(w: World, k: Key): Pc {
    if k in w.pcs then w.pcs[k] else Idle
  }

  predicate HasFinalizer(w: World, k: Key) {
    k in w.store.objects && FINALIZER in w.store.objects[k].finalizers
  }

  // ---- Names on the box ----

  function Named(staged: Config, name: string): set<Uuid> {
    set u | u in staged && staged[u].name == name
  }

  /** The box refuses an alias whose name another one has. */
  predicate NameTaken(staged: Config, name: string, except: set<Uuid>) {
    Named(staged, name) - except != {}
  }

  function ByName(staged: Config, name: string): Option<Uuid> {
    if |Named(staged, name)| == 1 then Some(TheOnly(Named(staged, name))) else None
  }

  /** GetAlias rejects an export without name or type. */
  predicate Readable(s: StoredAlias) {
    s.name != "" && s.kind != ""
  }

  // ---- One reconcile, call by call ----

  function AfterGet(st: Store<Spec, Status>, k: Key): Pc {
    if k !in st.objects then Idle else
    var obj := st.objects[k];
    if obj.deleting then
      if FINALIZER !in obj.finalizers then Idle
      else if obj.status.uuid == "" then RemovingFinalizer(obj)
      else Connecting(obj)
    else if FINALIZER !in obj.finalizers then AddingFinalizer(obj)
    else Connecting(obj)
  }

  function AfterResolve(obj: AliasObject, uuid: Uuid, existing: Alias): Pc {
    if AliasNeedsUpdate(obj.spec, existing) then Updating(obj, uuid)
    else if ReflectsCurrent(obj, uuid) then Idle
    else SavingReady(obj, uuid)
  }

  function AfterRead(obj: AliasObject, uuid: Uuid, s: StoredAlias, text: string): Pc {
    if Readable(s) then AfterResolve(obj, uuid, DecodeAlias(s)) else SavingFailure(obj, "LookupFailed", text)
  }

  /** setItem is answered with a failure that lists no validations; an unknown uuid always is. */
  predicate AnsweredUnknown(staged: Config, u: Uuid, o: Outcome) {
    (o.fate.Done? || o.fate.Refused?) && (u !in staged || (o.fate.Refused? && o.validations == map[]))
  }

  function PcAfter(w: World, k: Key, o: Outcome): Pc {
    var done := o.fate.Done?;
    match PcOf(w, k)
    case Idle => Idle
    case AddingFinalizer(_) => Idle
    case Connecting(obj) =>
      if !done then SavingFailure(obj, o.reason, o.text)
      else if obj.deleting then DeletingAlias(obj)
      else if obj.status.uuid != "" then Reading(obj)
      else LookingUp(obj)
    case Reading(obj) =>
      if !done then SavingFailure(obj, "LookupFailed", o.text)
      else if obj.status.uuid !in w.staged then LookingUp(obj)
      else AfterRead(obj, obj.status.uuid, w.staged[obj.status.uuid], o.text)
    case LookingUp(obj) =>
      if !done then SavingFailure(obj, "LookupFailed", o.text)
      else (match ByName(w.staged, obj.spec.name) case None => Creating(obj) case Some(u) => ReadingFound(obj, u))
    case ReadingFound(obj, u) =>
      if !done || u !in w.staged then SavingFailure(obj, "LookupFailed", o.text)
      else AfterRead(obj, u, w.staged[u], o.text)
    case Creating(obj) =>
      if o.fate.Refused? || (done && NameTaken(w.staged, obj.spec.name, {}))
      then SavingFailure(obj, "ValidationFailed", o.text)
      else if done then Reconfiguring(obj, o.uuid)
      else SavingFailure(obj, "CreateFailed", o.text)
    case Updating(obj, u) =>
      if done && u in w.staged && !NameTaken(w.staged, obj.spec.name, {u}) then Reconfiguring(obj, u)
      else if AnsweredUnknown(w.staged, u, o) || o.fate.FailedBefore? || o.fate.FailedAfter?
      then SavingFailure(obj, "UpdateFailed", o.text)
      else SavingFailure(obj, "ValidationFailed", o.text)
    case Reconfiguring(obj, u) =>
      if done then SavingReady(obj, u) else SavingFailure(obj, "ReconfigureFailed", o.text)
    case SavingReady(_, _) => Idle
    case SavingFailure(_, _, _) => Idle
    case DeletingAlias(obj) =>
      if done then ReconfiguringDelete(obj) else SavingFailure(obj, "DeleteFailed", o.text)
    case ReconfiguringDelete(obj) =>
      if done then RemovingFinalizer(obj) else SavingFailure(obj, "ReconfigureFailed", o.text)
    case RemovingFinalizer(_) => Idle
  }

  function StagedAfter(w: World, k: Key, o: Outcome): Config {
    if !o.Performed() then w.staged else
    match PcOf(w, k)
    case Creating(obj) =>
      if NameTaken(w.staged, obj.spec.name, {}) then w.staged
      else w.staged[o.uuid := StoreNewAlias(EncodeAlias(SpecToAlias(obj.spec)))]
    case Updating(obj, u) =>
      if u !in w.staged || NameTaken(w.staged, obj.spec.name, {u}) then w.staged
      else w.staged[u := StoreOverAlias(w.staged[u], EncodeAlias(SpecToAlias(obj.spec)))]
    case DeletingAlias(obj) => w.staged - {obj.status.uuid}
    case _ => w.staged
  }

  function LiveAfter(w: World, k: Key, o: Outcome): Config {
    var pc := PcOf(w, k);
    if o.Performed() && (pc.Reconfiguring? || pc.ReconfiguringDelete?) then w.staged else w.live
  }

  function UsedAfter(w: World, k: Key, o: Outcome): set<Uuid> {
    if o.Performed() && PcOf(w, k).Creating? then w.used + {o.uuid} else w.used
  }

  function StoreAfter(w: World, k: Key, o: Outcome): Store<Spec, Status> {
    if !o.Performed() then w.store else
    match PcOf(w, k)
    case AddingFinalizer(obj) => Update(w.store, k, obj.(finalizers := obj.finalizers + {FINALIZER}))
    case RemovingFinalizer(obj) => Update(w.store, k, obj.(finalizers := obj.finalizers - {FINALIZER}))
    case SavingReady(obj, u) => UpdateStatus(w.store, k, obj.(status := ReadyStatus(obj, u)))
    case SavingFailure(obj, reason, message) =>
      UpdateStatus(w.store, k, obj.(status := FailedStatus(obj, reason, message)))
    case _ => w.store
  }

  function Perform(w: World, k: Key, o: Outcome): World {
    World(StoreAfter(w, k, o), StagedAfter(w, k, o), LiveAfter(w, k, o), UsedAfter(w, k, o),
          w.pcs[k := PcAfter(w, k, o)])
  }

  // ---- Events and runs ----

  predicate Enabled(w: World, e: Event) {
    match e
    case Begin(k, _) => PcOf(w, k).Idle?
    case Call(k, o) =>
      !PcOf(w, k).Idle? && (PcOf(w, k).Creating? && o.Performed() ==> o.uuid != "" && o.uuid !in w.used)
    case Crash(_) => true
    case UserCreate(k, spec, _) => k !in w.store.objects && ValidSpec(spec)
    case UserEdit(k, spec) => k in w.store.objects && ValidSpec(spec)
    case UserDelete(k) => k in w.store.objects
    case OthersFinalize(k, _) => k in w.store.objects
    case AdminAdd(u, s) => u != "" && u !in w.used && Readable(s) && !NameTaken(w.staged, s.name, {})
    case AdminSet(u, s) => u in w.staged && Readable(s) && !NameTaken(w.staged, s.name, {u})
    case AdminDelete(_) => true
    case AdminApply => true
  }

  function Act(w: World, e: Event): World
    requires Enabled(w, e)
  {
    match e
    case Begin(k, ok) => w.(pcs := w.pcs[k := if ok then AfterGet(w.store, k) else Idle])
    case Call(k, o) => Perform(w, k, o)
    case Crash(k) => w.(pcs := w.pcs[k := Idle])
    case UserCreate(k, spec, finalizers) => w.(store := Create(w.store, k, spec, Status("", 0, None), finalizers))
    case UserEdit(k, spec) => w.(store := Edit(w.store, k, spec))
    case UserDelete(k) => w.(store := Delete(w.store, k))
    case OthersFinalize(k, finalizers) => w.(store := OtherFinalizers(w.store, k, FINALIZER, finalizers))
    case AdminAdd(u, s) => w.(staged := w.staged[u := s], used := w.used + {u})
    case AdminSet(u, s) => w.(staged := w.staged[u := s])
    case AdminDelete(u) => w.(staged := w.staged - {u})
    case AdminApply => w.(live := w.staged)
  }

  function Next(w: World, e: Event): World {
    if Enabled(w, e) then Act(w, e) else w
  }

  function Run(w: World, es: seq<Event>): World {
    if es == [] then w else Next(Run(w, es[..|es| - 1]), es[|es| - 1])
  }

  ghost predicate UniqueNames(staged: Config) {
    forall u, v | u in staged && v in staged && staged[u].name == staged[v].name :: u == v
  }

  ghost predicate Initial(w: World) {
    && w.store.objects == map[] && w.pcs == map[]
    && w.staged.Keys <= w.used && w.live.Keys <= w.used && "" !in w.used
    && UniqueNames(w.staged) && forall u | u in w.staged :: Readable(w.staged[u])
  }

  lemma {:induction false} RunConcat(w: World, es: seq<Event>, fs: seq<Event>)
    ensures Run(w, es + fs) == Run(Run(w, es), fs)
  {
    if fs == [] {
      assert es + fs == es;
    } else {
      assert (es + fs)[..|es + fs| - 1] == es + fs[..|fs| - 1];
      RunConcat(w, es, fs[..|fs| - 1]);
    }
  }
}
