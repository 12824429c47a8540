/**
 From a FirewallRule resource to the rule it asks for, and the test that tells whether the box has it.
 */
module RuleSpec {
  import opened Text
  import opened Kube
  import opened Opnsense

  newtype int32 = x: int | -0x8000_0000 <= x < 0x8000_0000

  datatype Endpoint = Endpoint(net: string, negated: bool, port: string)

  datatype Spec = Spec(
    enabled: bool, action: string, direction: string, iface: string, ipProtocol: string, protocol: string,
    source: Endpoint, destination: Endpoint, sequence: Option<int32>, quick: bool, log: bool, description: string)

  datatype Status = Status(uuid: Uuid, sequence: string, observedGeneration: nat, ready: Option<Condition>)

  type RuleObject = Object<Spec, Status>

  const FINALIZER := "firewall.opnsense.io/firewallrule-finalizer"
  const MARKER := "[opnsense-operator:"
  const READY_REASON := "FirewallRuleReady"
  const READY_MESSAGE := "FirewallRule is in sync with OPNsense"

  /** The search phrase under which a resource's rule is looked up. */
  function Phrase(k: Key): string {
    k.ns + "/" + k.name
  }

  /** The managed suffix by which a resource's rule is recognised. */
  function Tag(k: Key): string {
    MARKER + Phrase(k) + "]"
  }

  function ManagedDescription(description: string, k: Key): string {
    TrimSpace(description + " " + Tag(k))
  }

  function SpecToRule(spec: Spec, k: Key): FirewallRule {
    FirewallRule(
      spec.enabled, spec.action, spec.iface, spec.direction, spec.ipProtocol, spec.protocol,
      spec.source.net, spec.source.negated, spec.source.port,
      spec.destination.net, spec.destination.negated, spec.destination.port,
      if spec.sequence.Some? then Decimal(spec.sequence.value as int) else "",
      spec.log, spec.quick, ManagedDescription(spec.description, k))
  }

  predicate RuleNeedsUpdate(spec: Spec, k: Key, existing: FirewallRule) {
    var desired := SpecToRule(spec, k);
    || desired.enabled != existing.enabled
    || desired.action != existing.action
    || desired.iface != existing.iface
    || desired.direction != existing.direction
    || desired.ipProtocol != existing.ipProtocol
    || desired.protocol != existing.protocol
    || desired.sourceNet != existing.sourceNet
    || desired.sourceNot != existing.sourceNot
    || desired.sourcePort != existing.sourcePort
    || desired.destinationNet != existing.destinationNet
    || desired.destinationNot != existing.destinationNot
    || desired.destinationPort != existing.destinationPort
    || desired.log != existing.log
    || desired.quick != existing.quick
    || desired.description != existing.description
    || (spec.sequence.Some? && desired.sequence != existing.sequence)
  }

  /** The status that setReadySuccess writes. */
  function ReadyStatus(obj: RuleObject, uuid: Uuid, sequence: string): Status {
    Status(uuid, sequence, obj.generation, Some(Condition(true, READY_REASON, READY_MESSAGE, obj.generation)))
  }

  /** The status that setReadyFailed writes: only the condition changes. */
  function FailedStatus(obj: RuleObject, reason: string, message: string): Status {
    obj.status.(ready := Some(Condition(false, reason, message, obj.generation)))
  }

  /** The short-circuit test that spares the status write. */
  predicate ReflectsCurrent(obj: RuleObject, uuid: Uuid, sequence: string) {
    && obj.status.uuid == uuid
    && obj.status.sequence == sequence
    && obj.status.observedGeneration == obj.generation
    && obj.status.ready.Some? && obj.status.ready.value.ok
  }

  // ---- Tags ----

  /** `description` ends with the managed suffix of `k`. */
  predicate Bears(description: string, k: Key) {
    EndsWith(description, Tag(k))
  }

  lemma TagShape(k: Key)
    ensures |Tag(k)| == |MARKER| + |Phrase(k)| + 1
    ensures Tag(k)[0] == '[' && Tag(k)[|Tag(k)| - 1] == ']'
    ensures Tag(k)[|MARKER|..|Tag(k)| - 1] == Phrase(k)
    ensures ValidKey(k) ==> forall i | 0 < i < |Tag(k)| :: Tag(k)[i] != '['
  {
  }

  /** Namespace and name are recoverable from the search phrase. */
  lemma PhraseInjective(k: Key, j: Key)
    requires ValidKey(k) && ValidKey(j) && Phrase(k) == Phrase(j)
    ensures k == j
  {
    var p := Phrase(k);
    assert p[|k.ns|] == '/' && p[|j.ns|] == '/';
    assert forall i | 0 <= i < |p| && i != |k.ns| :: p[i] != '/' by {
      assert forall i | |k.ns| < i < |p| :: p[i] == k.name[i - |k.ns| - 1];
    }
    assert |k.ns| == |j.ns|;
    assert p[..|k.ns|] == k.ns && p[..|j.ns|] == j.ns;
    assert p[|k.ns| + 1..] == k.name && p[|j.ns| + 1..] == j.name;
  }

  /** No text ends with the tags of two different resources. */
  lemma TagUnique(description: string, k: Key, j: Key)
    requires ValidKey(k) && ValidKey(j)
    requires Bears(description, k) && Bears(description, j)
    ensures k == j
  {
    TagShape(k);
    TagShape(j);
    EndingUnique(description, Tag(k), Tag(j));
    PhraseInjective(k, j);
  }

  /** A text has only one ending that opens with a bracket and has no other. */
  lemma EndingUnique(text: string, s: string, t: string)
    requires EndsWith(text, s) && EndsWith(text, t) && s != "" && t != "" && s[0] == t[0] == '['
    requires (forall i | 0 < i < |s| :: s[i] != '[') && (forall i | 0 < i < |t| :: t[i] != '[')
    ensures s == t
  {
    assert text[|text| - |s|] == '[' && text[|text| - |t|] == '[';
    assert forall i | |text| - |s| < i < |text| :: text[i] == s[i - (|text| - |s|)] != '[';
    assert forall i | |text| - |t| < i < |text| :: text[i] == t[i - (|text| - |t|)] != '[';
  }

  /** Whatever the user writes, the managed description still ends with the resource's own tag. */
  lemma ManagedDescriptionBears(description: string, k: Key)
    ensures Bears(ManagedDescription(description, k), k)
  {
    TagShape(k);
    assert EndsWith(description + " " + Tag(k), Tag(k));
    TrimSpaceKeepsEnd(description + " " + Tag(k), Tag(k));
  }

  /** The search for a resource never misses a rule that bears its tag. */
  lemma BearersMatch(description: string, k: Key)
    requires Bears(description, k)
    ensures Matches(description, Phrase(k))
  {
    var before := description[..|description| - |Tag(k)|];
    assert description == before + Tag(k);
    assert description == (before + MARKER) + Phrase(k) + "]";
    MatchesInside(before + MARKER, Phrase(k), "]");
  }

  /** A rule of `k` is also hit by the search for `j` whenever the phrase of `j` occurs in that of `k`. */
  lemma NestedNamesAreHit(before: string, after: string, j: Key, k: Key, description: string)
    requires Phrase(k) == before + Phrase(j) + after && Bears(description, k)
    ensures Matches(description, Phrase(j))
  {
    var front := description[..|description| - |Tag(k)|];
    assert description == front + Tag(k);
    assert description == (front + MARKER + before) + Phrase(j) + (after + "]");
    MatchesInside(front + MARKER + before, Phrase(j), after + "]");
  }
}
