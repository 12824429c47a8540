/**
 The part of the Kubernetes API server that the reconcilers rely on: custom resources with a
 generation, a deletion mark, finalizers and a status subresource, guarded by resource versions.
 */
module Kube {

  datatype Option<+T> = None | Some(value: T) {
    function GetOr(default: T): T {
      if Some? then value else default
    }
  }

  datatype Key = Key(ns: string, name: string)

  predicate IsNameChar(c: char) {
    'a' <= c <= 'z' || '0' <= c <= '9' || c == '-' || c == '.'
  }

  /** The characters that section 2.1 of RFC 1123 allows in names. */
  predicate ValidKey(k: Key) {
    && k.ns != "" && k.name != ""
    && (forall i | 0 <= i < |k.ns| :: IsNameChar(k.ns[i]))
    && (forall i | 0 <= i < |k.name| :: IsNameChar(k.name[i]))
  }

  /** The Ready condition without its timestamp; `ok` is its status. */
  datatype Condition = Condition(ok: bool, reason: string, message: string, observedGeneration: nat)

  datatype Object<S, T> = Object(
    spec: S, status: T, generation: nat, deleting: bool, finalizers: set<string>, version: nat)

  /** `revision` is the store's global counter from which every object version is drawn. */
  datatype Store<S, T> = Store(objects: map<Key, Object<S, T>>, revision: nat)

  /** Stores `obj` under a new version, unless it equals what is already there. */
  function Put<S(==), T(==)>(st: Store<S, T>, k: Key, obj: Object<S, T>): Store<S, T> {
    if k in st.objects && st.objects[k] == obj then st
    else Store(st.objects[k := obj.(version := st.revision + 1)], st.revision + 1)
  }

  /** As Put, but an object marked for deletion vanishes with its last finalizer. */
  function PutOrCollect<S(==), T(==)>(st: Store<S, T>, k: Key, obj: Object<S, T>): Store<S, T> {
    if obj.deleting && obj.finalizers == {} then Store(st.objects - {k}, st.revision + 1)
    else Put(st, k, obj)
  }

  predicate Current<S, T>(st: Store<S, T>, k: Key, copy: Object<S, T>) {
    k in st.objects && st.objects[k].version == copy.version
  }

  /** client.Update: writes the finalizers of `copy`; a stale copy conflicts and changes nothing. */
  function Update<S(==), T(==)>(st: Store<S, T>, k: Key, copy: Object<S, T>): Store<S, T> {
    if Current(st, k, copy)
    then PutOrCollect(st, k, st.objects[k].(finalizers := copy.finalizers))
    else st
  }

  /** client.Status().Update: writes only the status; a stale copy conflicts and changes nothing. */
  function UpdateStatus<S(==), T(==)>(st: Store<S, T>, k: Key, copy: Object<S, T>): Store<S, T> {
    if Current(st, k, copy) then Put(st, k, st.objects[k].(status := copy.status)) else st
  }

  // ---- What users and other controllers do ----

  function Create<S(==), T(==)>(st: Store<S, T>, k: Key, spec: S, status: T, finalizers: set<string>): Store<S, T>
    requires k !in st.objects
  {
    Put(st, k, Object(spec, status, 1, false, finalizers, 0))
  }

  function Edit<S(==), T(==)>(st: Store<S, T>, k: Key, spec: S): Store<S, T>
    requires k in st.objects
  {
    var obj := st.objects[k];
    if obj.spec == spec then st else Put(st, k, obj.(spec := spec, generation := obj.generation + 1))
  }

  /** A deletion request only marks the object while it has finalizers. */
  function Delete<S(==), T(==)>(st: Store<S, T>, k: Key): Store<S, T>
    requires k in st.objects
  {
    var obj := st.objects[k];
    if obj.deleting then st
    else PutOrCollect(st, k, obj.(deleting := true, generation := obj.generation + 1))
  }

  /** Another controller replaces the finalizers; it never touches `mine` and may not add any during deletion. */
  function OtherFinalizers<S(==), T(==)>(st: Store<S, T>, k: Key, mine: string, others: set<string>): Store<S, T>
    requires k in st.objects
  {
    var obj := st.objects[k];
    var next := (if obj.deleting then others * obj.finalizers else others) - {mine} + (obj.finalizers * {mine});
    PutOrCollect(st, k, obj.(finalizers := next))
  }

  // ---- What the reconcilers can rely on ----

  /** A write from a stale copy changes nothing. */
  lemma StaleWritesConflict<S, T>(st: Store<S, T>, k: Key, copy: Object<S, T>)
    requires !(k in st.objects && st.objects[k].version == copy.version)
    ensures Update(st, k, copy) == st && UpdateStatus(st, k, copy) == st
  {
  }

  /** A current status write stores that status and leaves the rest of the object and all other objects alone. */
  lemma StatusWriteIsExact<S, T>(st: Store<S, T>, k: Key, copy: Object<S, T>)
    requires k in st.objects && st.objects[k].version == copy.version
    ensures
      var st', was := UpdateStatus(st, k, copy), st.objects[k];
      && st'.objects.Keys == st.objects.Keys
      && (forall j | j in st.objects && j != k :: st'.objects[j] == st.objects[j])
      && var now := st'.objects[k];
      && now.status == copy.status && now.spec == was.spec && now.finalizers == was.finalizers
      && now.generation == was.generation && now.deleting == was.deleting
  {
  }

  /** A current write of finalizers stores them; a deleted object without any is gone. Everything else stays. */
  lemma FinalizerWriteIsExact<S, T>(st: Store<S, T>, k: Key, copy: Object<S, T>)
    requires k in st.objects && st.objects[k].version == copy.version
    ensures
      var st', was := Update(st, k, copy), st.objects[k];
      && (forall j | j != k :: (j in st'.objects <==> j in st.objects) &&
            (j in st.objects ==> st'.objects[j] == st.objects[j]))
      && (k !in st'.objects <==> was.deleting && copy.finalizers == {})
      && (k in st'.objects ==>
            var now := st'.objects[k];
            && now.finalizers == copy.finalizers && now.status == was.status && now.spec == was.spec
            && now.generation == was.generation && now.deleting == was.deleting)
  {
  }

  /** Whatever changes an object makes earlier copies stale, and a new spec or a deletion raises the generation. */
  lemma ChangesAreVersioned<S, T>(st: Store<S, T>, k: Key, spec: S)
    requires k in st.objects && st.objects[k].version <= st.revision
    ensures
      var was, st' := st.objects[k], Edit(st, k, spec);
      && k in st'.objects && st'.objects[k].spec == spec
      && (spec != was.spec ==> st'.objects[k].version > was.version && st'.objects[k].generation == was.generation + 1)
      && (spec == was.spec ==> st' == st)
    ensures
      var was, st' := st.objects[k], Delete(st, k);
      && (k !in st'.objects <==> !was.deleting && was.finalizers == {})
      && (k in st'.objects ==> st'.objects[k].deleting && st'.objects[k].spec == was.spec)
      && (k in st'.objects && !was.deleting ==>
            st'.objects[k].version > was.version && st'.objects[k].generation == was.generation + 1)
  {
  }
}
