/**
 Aliases: from the resource to the payload, what the box stores, and the drift test.
 */
module AliasSpec {
  import opened Text
  import opened Kube
  import opened Opnsense

  datatype Spec = Spec(name: string, kind: string, entries: seq<string>, description: string, enabled: bool)

  datatype Status = Status(uuid: Uuid, observedGeneration: nat, ready: Option<Condition>)

  type AliasObject = Object<Spec, Status>

  datatype Alias = Alias(enabled: bool, name: string, kind: string, content: string, description: string)

  /** The body of addItem and setItem; an empty description is omitted. */
  datatype AliasPayload = AliasPayload(
    enabled: string, name: string, kind: string, content: string, description: Option<string>)

  /** An alias as the box keeps it; `extra` are the fields that the operator does not manage. */
  datatype StoredAlias = StoredAlias(
    enabled: string, name: string, kind: string, content: string, description: string, extra: map<string, string>)

  const FINALIZER := "firewall.opnsense.io/finalizer"
  const READY_REASON := "AliasReady"
  const READY_MESSAGE := "Alias is in sync with OPNsense"

  /** What the resource definition demands of a spec. */
  predicate ValidSpec(spec: Spec) {
    spec.name != "" && spec.kind != "" && spec.entries != []
  }

  function SpecToAlias(spec: Spec): Alias {
    Alias(spec.enabled, spec.name, spec.kind, Join(spec.entries, "\n"), spec.description)
  }

  predicate AliasNeedsUpdate(spec: Spec, existing: Alias) {
    || spec.enabled != existing.enabled
    || spec.kind != existing.kind
    || spec.description != existing.description
    || Join(spec.entries, "\n") != existing.content
  }

  function EncodeAlias(alias: Alias): AliasPayload {
    AliasPayload(
      BoolToStr(alias.enabled), alias.name, alias.kind, alias.content,
      if alias.description == "" then None else Some(alias.description))
  }

  function StoreNewAlias(p: AliasPayload): StoredAlias {
    StoredAlias(
      p.enabled, p.name, p.kind, p.content, if p.description.Some? then p.description.value else "", map[])
  }

  /** setItem: an omitted description keeps its value. */
  function StoreOverAlias(prev: StoredAlias, p: AliasPayload): StoredAlias {
    StoredAlias(
      p.enabled, p.name, p.kind, p.content,
      if p.description.Some? then p.description.value else prev.description, prev.extra)
  }

  /** What GetAlias reports of a stored alias. */
  function DecodeAlias(s: StoredAlias): Alias {
    Alias(s.enabled == "1", s.name, s.kind, s.content, s.description)
  }

  function ReadyStatus(obj: AliasObject, uuid: Uuid): Status {
    Status(uuid, obj.generation, Some(Condition(true, READY_REASON, READY_MESSAGE, obj.generation)))
  }

  function FailedStatus(obj: AliasObject, reason: string, message: string): Status {
    obj.status.(ready := Some(Condition(false, reason, message, obj.generation)))
  }

  predicate ReflectsCurrent(obj: AliasObject, uuid: Uuid) {
    && obj.status.uuid == uuid
    && obj.status.observedGeneration == obj.generation
    && obj.status.ready.Some? && obj.status.ready.value.ok
  }

  // ---- Entries ----

  /** strings.Split(s, "\n") */
  function SplitLines(s: string): (lines: seq<string>)
    ensures lines != []
  {
    if s == "" then [""]
    else if s[0] == '\n' then [""] + SplitLines(s[1..])
    else var rest := SplitLines(s[1..]); [[s[0]] + rest[0]] + rest[1..]
  }

  predicate OneLineEach(entries: seq<string>) {
    forall i | 0 <= i < |entries| :: '\n' !in entries[i]
  }

  lemma {:induction false} SplitFirstLine(line: string, rest: string)
    requires '\n' !in line
    ensures SplitLines(line) == [line] && SplitLines(line + "\n" + rest) == [line] + SplitLines(rest)
  {
    if line == "" {
      assert (line + "\n" + rest)[1..] == rest;
    } else {
      assert (line + "\n" + rest)[1..] == line[1..] + "\n" + rest;
      assert line == [line[0]] + line[1..];
      SplitFirstLine(line[1..], rest);
    }
  }

  /** Splitting undoes the join: the entries are recoverable from the content. */
  lemma {:induction false} SplitUndoesJoin(entries: seq<string>)
    requires entries != [] && OneLineEach(entries)
    ensures SplitLines(Join(entries, "\n")) == entries
  {
    if |entries| == 1 {
      SplitFirstLine(entries[0], "");
    } else {
      SplitFirstLine(entries[0], Join(entries[1..], "\n"));
      SplitUndoesJoin(entries[1..]);
      assert Join(entries, "\n") == entries[0] + "\n" + Join(entries[1..], "\n");
    }
  }

  /** The drift test is exact on everything but the name: no drift means the same entries, one by one. */
  lemma DriftTestIsExact(spec: Spec, existing: Alias, entries: seq<string>)
    requires spec.entries != [] && OneLineEach(spec.entries)
    requires entries != [] && OneLineEach(entries) && existing.content == Join(entries, "\n")
    ensures
      !AliasNeedsUpdate(spec, existing) <==>
        && spec.enabled == existing.enabled && spec.kind == existing.kind
        && spec.description == existing.description && spec.entries == entries
  {
    SplitUndoesJoin(spec.entries);
    SplitUndoesJoin(entries);
  }

  /** Without drift the box's alias is the desired one exactly when the names agree, which the test does not ask. */
  lemma NoDriftMeansEqualUpToName(spec: Spec, existing: Alias)
    requires !AliasNeedsUpdate(spec, existing)
    ensures existing == SpecToAlias(spec) <==> existing.name == spec.name
    ensures existing == SpecToAlias(spec).(name := existing.name)
  {
    assert existing.(name := spec.name) == SpecToAlias(spec);
  }

  /** What is sent of a spec, field by field: the entries one a line, and an empty description not at all. */
  lemma PayloadFields(spec: Spec)
    ensures
      var p := EncodeAlias(SpecToAlias(spec));
      && p.enabled == (if spec.enabled then "1" else "0") && p.name == spec.name && p.kind == spec.kind
      && p.description == (if spec.description == "" then None else Some(spec.description))
      && (spec.entries == [] ==> p.content == "")
      && (|spec.entries| == 1 ==> p.content == spec.entries[0])
      && (|spec.entries| > 1 ==>
            var rest := spec.(entries := spec.entries[1..]);
            p.content == spec.entries[0] + "\n" + EncodeAlias(SpecToAlias(rest)).content)
  {
  }

  /** An update removes the drift exactly when it sends a description or has none to remove. */
  lemma UpdateConvergesIff(spec: Spec, prev: StoredAlias)
    ensures
      var stored := StoreOverAlias(prev, EncodeAlias(SpecToAlias(spec)));
      && (!AliasNeedsUpdate(spec, DecodeAlias(stored)) <==> spec.description != "" || prev.description == "")
      && stored.name == spec.name && stored.extra == prev.extra
  {
  }

  lemma CreateConverges(spec: Spec)
    ensures
      var stored := StoreNewAlias(EncodeAlias(SpecToAlias(spec)));
      && stored.name == spec.name && !AliasNeedsUpdate(spec, DecodeAlias(stored))
      && DecodeAlias(stored) == SpecToAlias(spec)
  {
  }

  /**
   The stored alias has the enabled flag, the type and the entries that the spec asks for, and its description
   if the spec has one; an empty description asks for nothing.
   */
  ghost predicate Carries(spec: Spec, stored: StoredAlias) {
    && (stored.enabled == "1" <==> spec.enabled)
    && stored.kind == spec.kind
    && stored.content == Join(spec.entries, "\n")
    && (spec.description != "" ==> stored.description == spec.description)
  }

  /** What is missing from no drift is that an empty description empties the stored one. */
  lemma NoDriftIff(spec: Spec, stored: StoredAlias)
    ensures
      !AliasNeedsUpdate(spec, DecodeAlias(stored)) <==>
        Carries(spec, stored) && (spec.description == "" ==> stored.description == "")
  {
  }

  /** Whatever is written, and whatever shows no drift, carries the spec. */
  lemma WrittenCarries(spec: Spec, prev: StoredAlias)
    ensures Carries(spec, StoreOverAlias(prev, EncodeAlias(SpecToAlias(spec))))
    ensures Carries(spec, StoreNewAlias(EncodeAlias(SpecToAlias(spec))))
    ensures !AliasNeedsUpdate(spec, DecodeAlias(prev)) ==> Carries(spec, prev)
  {
  }
}
