/**
 The OPNsense client's data: what it sends, what the box stores, and what it decodes from replies.
 */
module Opnsense {
  import opened Kube

  type Uuid = string

  /** The operator-managed fields of a filter rule. */
  datatype FirewallRule = FirewallRule(
    enabled: bool, action: string, iface: string, direction: string, ipProtocol: string, protocol: string,
    sourceNet: string, sourceNot: bool, sourcePort: string,
    destinationNet: string, destinationNot: bool, destinationPort: string,
    sequence: string, log: bool, quick: bool, description: string)

  /** The body of addRule and setRule; an omitted field is None. */
  datatype RulePayload = RulePayload(
    enabled: string, action: string, iface: string, direction: string, ipProtocol: string, protocol: string,
    sourceNet: string, sourceNot: string, sourcePort: string,
    destinationNet: string, destinationNot: string, destinationPort: string,
    sequence: Option<string>, log: string, quick: string, description: string)

  /** A rule as the box keeps it; `extra` are the fields that the operator does not manage. */
  datatype StoredRule = StoredRule(
    enabled: string, action: string, iface: string, direction: string, ipProtocol: string, protocol: string,
    sourceNet: string, sourceNot: string, sourcePort: string,
    destinationNet: string, destinationNot: string, destinationPort: string,
    sequence: string, log: string, quick: string, description: string, extra: map<string, string>)

  function BoolToStr(b: bool): string {
    if b then "1" else "0"
  }

  function EncodeFirewallRule(rule: FirewallRule): RulePayload {
    RulePayload(
      BoolToStr(rule.enabled), rule.action, rule.iface, rule.direction, rule.ipProtocol, rule.protocol,
      rule.sourceNet, BoolToStr(rule.sourceNot), rule.sourcePort,
      rule.destinationNet, BoolToStr(rule.destinationNot), rule.destinationPort,
      if rule.sequence == "" then None else Some(rule.sequence),
      BoolToStr(rule.log), BoolToStr(rule.quick), rule.description)
  }

  /** addRule: the box assigns a sequence when none is sent. */
  function StoreNew(p: RulePayload, autoSequence: string): StoredRule {
    StoredRule(
      p.enabled, p.action, p.iface, p.direction, p.ipProtocol, p.protocol,
      p.sourceNet, p.sourceNot, p.sourcePort, p.destinationNet, p.destinationNot, p.destinationPort,
      if p.sequence.Some? then p.sequence.value else autoSequence, p.log, p.quick, p.description, map[])
  }

  /** setRule: omitted fields keep their value. */
  function StoreOver(prev: StoredRule, p: RulePayload): StoredRule {
    StoredRule(
      p.enabled, p.action, p.iface, p.direction, p.ipProtocol, p.protocol,
      p.sourceNet, p.sourceNot, p.sourcePort, p.destinationNet, p.destinationNot, p.destinationPort,
      if p.sequence.Some? then p.sequence.value else prev.sequence, p.log, p.quick, p.description, prev.extra)
  }

  /** What GetRule reports of a stored rule. */
  function Decode(s: StoredRule): FirewallRule {
    FirewallRule(
      s.enabled == "1", s.action, s.iface, s.direction, s.ipProtocol, s.protocol,
      s.sourceNet, s.sourceNot == "1", s.sourcePort,
      s.destinationNet, s.destinationNot == "1", s.destinationPort,
      s.sequence, s.log == "1", s.quick == "1", s.description)
  }

  lemma SingletonUnique(s: set<Uuid>)
    requires |s| == 1
    ensures forall u, v | u in s && v in s :: u == v
  {
    forall u, v | u in s && v in s
      ensures u == v
    {
      assert |s - {u}| == 0;
      assert v !in s - {u};
    }
  }

  function TheOnly(s: set<Uuid>): (u: Uuid)
    requires |s| == 1
    ensures s == {u}
  {
    SingletonUnique(s);
    assert s != {};
    var u :| u in s; u
  }
}
