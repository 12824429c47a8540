/**
 The drift test and the write path: what an update leaves on the box, what is read back, and when the
 operator sees no difference.
 */
module RuleDrift {
  import opened Text
  import opened Kube
  import opened Opnsense
  import opened RuleSpec

  /** The stored rule carries every managed field that the spec asks for; the sequence only if it asks for one. */
  ghost predicate Agrees(spec: Spec, k: Key, stored: StoredRule) {
    && (stored.enabled == "1" <==> spec.enabled)
    && stored.action == spec.action
    && stored.iface == spec.iface
    && stored.direction == spec.direction
    && stored.ipProtocol == spec.ipProtocol
    && stored.protocol == spec.protocol
    && stored.sourceNet == spec.source.net
    && (stored.sourceNot == "1" <==> spec.source.negated)
    && stored.sourcePort == spec.source.port
    && stored.destinationNet == spec.destination.net
    && (stored.destinationNot == "1" <==> spec.destination.negated)
    && stored.destinationPort == spec.destination.port
    && (stored.log == "1" <==> spec.log)
    && (stored.quick == "1" <==> spec.quick)
    && stored.description == ManagedDescription(spec.description, k)
    && (spec.sequence.Some? ==> stored.sequence == Decimal(spec.sequence.value as int))
  }

  /** The drift test is exact. */
  lemma DriftTestIsExact(spec: Spec, k: Key, stored: StoredRule)
    ensures !RuleNeedsUpdate(spec, k, Decode(stored)) <==> Agrees(spec, k, stored)
  {
  }

  /** A spec that sets a sequence always sends it, and one that does not never does. */
  lemma SequenceIsSentIffSet(spec: Spec, k: Key)
    ensures EncodeFirewallRule(SpecToRule(spec, k)).sequence.Some? <==> spec.sequence.Some?
  {
    if spec.sequence.Some? {
      DecimalRoundTrip(spec.sequence.value as int);
    }
  }

  /** What is sent of a spec, field by field: flags as "1" or "0", and a set sequence as its decimal numeral. */
  lemma PayloadFields(spec: Spec, k: Key)
    ensures
      var p := EncodeFirewallRule(SpecToRule(spec, k));
      && p.enabled == (if spec.enabled then "1" else "0")
      && p.action == spec.action && p.iface == spec.iface && p.direction == spec.direction
      && p.ipProtocol == spec.ipProtocol && p.protocol == spec.protocol
      && p.sourceNet == spec.source.net && p.sourcePort == spec.source.port
      && p.sourceNot == (if spec.source.negated then "1" else "0")
      && p.destinationNet == spec.destination.net && p.destinationPort == spec.destination.port
      && p.destinationNot == (if spec.destination.negated then "1" else "0")
      && p.log == (if spec.log then "1" else "0") && p.quick == (if spec.quick then "1" else "0")
      && (p.sequence.Some? <==> spec.sequence.Some?)
      && (spec.sequence.Some? ==>
            Canonical(p.sequence.value) && Denotes(p.sequence.value) == spec.sequence.value as int)
  {
    if spec.sequence.Some? {
      DecimalRoundTrip(spec.sequence.value as int);
      DecimalIsCanonical(spec.sequence.value as int);
    }
  }

  /**
   What is sent as the description: the user's text without its leading spaces, a blank and the managed suffix; and the
   suffix alone where the text is nothing but spaces.
   */
  lemma PayloadDescription(spec: Spec, k: Key, front: string, text: string)
    requires spec.description == front + text && AllSpaces(front) && (text == "" || !IsSpace(text[0]))
    ensures
      var description := EncodeFirewallRule(SpecToRule(spec, k)).description;
      var suffix := "[opnsense-operator:" + k.ns + "/" + k.name + "]";
      description == if text == "" then suffix else text + " " + suffix
  {
    var suffix := "[opnsense-operator:" + k.ns + "/" + k.name + "]";
    SuffixIsTag(k);
    if text == "" {
      TrimSpaceDrops(front + " ", suffix, "");
      assert front + " " + suffix + "" == spec.description + " " + suffix;
    } else {
      TrimSpaceDrops(front, text + " " + suffix, "");
      assert front + (text + " " + suffix) + "" == spec.description + " " + suffix;
    }
  }

  lemma SuffixIsTag(k: Key)
    ensures Tag(k) == "[opnsense-operator:" + k.ns + "/" + k.name + "]"
  {
  }

  /** An update converges: what is read back is the desired rule, keeping the box's sequence when the spec sets none. */
  lemma UpdateConverges(spec: Spec, k: Key, prev: StoredRule)
    ensures
      var stored := StoreOver(prev, EncodeFirewallRule(SpecToRule(spec, k)));
      && Agrees(spec, k, stored)
      && !RuleNeedsUpdate(spec, k, Decode(stored))
      && (spec.sequence.None? ==> stored.sequence == prev.sequence)
      && stored.extra == prev.extra
  {
    SequenceIsSentIffSet(spec, k);
  }

  lemma CreateConverges(spec: Spec, k: Key, autoSequence: string)
    ensures
      var stored := StoreNew(EncodeFirewallRule(SpecToRule(spec, k)), autoSequence);
      && Agrees(spec, k, stored)
      && !RuleNeedsUpdate(spec, k, Decode(stored))
      && (spec.sequence.None? ==> stored.sequence == autoSequence)
  {
    SequenceIsSentIffSet(spec, k);
  }
}
