/**
 How the client reads the box's replies.
 */
module Replies {
  import opened Kube
  import opened Opnsense
  import opened Listings

  /** A reply that could not be had, or a decoded body. `text` is the text of any error reported from it. */
  datatype Reply<T> = Failed(text: string) | Answer(body: T, text: string)

  /** The sentinel errors; Other stands for every error without a sentinel of its own. */
  datatype ClientError = NotFound(text: string) | ValidationFailed(text: string) | Other(text: string)

  datatype Result<T> = Ok(value: T) | Err(error: ClientError)

  // ---- addRule and setRule ----

  datatype ResultResponse = ResultResponse(result: string, uuid: Uuid, validations: map<string, string>)

  /** resultResponse.resultError */
  function ResultError(r: ResultResponse, expected: string, text: string): Option<ClientError> {
    if r.result == "failed" then Some(ValidationFailed(text))
    else if r.result != expected then Some(Other(text))
    else None
  }

  /** Nothing is wrong exactly with the expected result, and a validation error is exactly the result "failed". */
  lemma ResultErrorIs(r: ResultResponse, expected: string, text: string)
    requires expected != "failed"
    ensures
      var failure := ResultError(r, expected, text);
      && (failure.None? <==> r.result == expected)
      && (failure == Some(ValidationFailed(text)) <==> r.result == "failed")
      && (failure == Some(Other(text)) <==> r.result != expected && r.result != "failed")
  {
  }

  /** An answer that neither refuses the call nor gives what a success must give. */
  predicate Malformed(r: ResultResponse, expected: string, needsUuid: bool) {
    r.result != "failed" && (r.result != expected || (needsUuid && r.uuid == ""))
  }

  /** How a call fails: with a malformed answer, or without any. */
  function Broken(r: ResultResponse, expected: string, needsUuid: bool, text: string): Reply<ResultResponse> {
    if Malformed(r, expected, needsUuid) then Answer(r, text) else Failed(text)
  }

  // ---- getRule ----

  datatype SelectEntry = SelectEntry(value: string, selected: int)

  type Select = map<string, SelectEntry>

  datatype RuleBody = RuleBody(
    enabled: string, action: Select, iface: Select, direction: Select, ipProtocol: Select, protocol: Select,
    sourceNet: string, sourceNot: string, sourcePort: string,
    destinationNet: string, destinationNot: string, destinationPort: string,
    sequence: string, log: string, quick: string, description: string)

  /** getRule answers an array for an unknown uuid; NoRule is an object without the rule's select fields. */
  datatype RuleReply = EmptyArray | NoRule | RuleData(rule: RuleBody)

  /** The select field shows `value`: nothing but that option is selected, and the empty value may select nothing. */
  ghost predicate Shows(m: Select, value: string) {
    && (forall key | key in m && m[key].selected == 1 :: key == value)
    && (value != "" ==> value in m && m[value].selected == 1)
  }

  ghost predicate Displays(b: RuleBody, s: StoredRule) {
    && b.enabled == s.enabled
    && Shows(b.action, s.action) && Shows(b.iface, s.iface) && Shows(b.direction, s.direction)
    && Shows(b.ipProtocol, s.ipProtocol) && Shows(b.protocol, s.protocol)
    && b.sourceNet == s.sourceNet && b.sourceNot == s.sourceNot && b.sourcePort == s.sourcePort
    && b.destinationNet == s.destinationNet && b.destinationNot == s.destinationNot
    && b.destinationPort == s.destinationPort
    && b.sequence == s.sequence && b.log == s.log && b.quick == s.quick && b.description == s.description
  }

  /** The box's rendering of a select field: the options of `menu`, with `value` selected. */
  function RenderSelect(menu: map<string, string>, value: string): Select {
    var options: Select := map key | key in menu :: SelectEntry(menu[key], 0);
    if value == "" then options else options[value := SelectEntry(value, 1)]
  }

  function Render(s: StoredRule, menu: map<string, string>): (b: RuleBody)
    ensures Displays(b, s)
  {
    RuleBody(
      s.enabled, RenderSelect(menu, s.action), RenderSelect(menu, s.iface), RenderSelect(menu, s.direction),
      RenderSelect(menu, s.ipProtocol), RenderSelect(menu, s.protocol),
      s.sourceNet, s.sourceNot, s.sourcePort, s.destinationNet, s.destinationNot, s.destinationPort,
      s.sequence, s.log, s.quick, s.description)
  }

  // ---- selectedKey ----

  ghost predicate IsOrder(order: seq<string>, m: Select) {
    NoRepeats(order) && Lists(order, m.Keys)
  }

  /** The result of selectedKey when the map is iterated in this order. */
  ghost function SelectedIn(order: seq<string>, m: Select): string
    requires forall key | key in order :: key in m
  {
    if order == [] then "" else if m[order[0]].selected == 1 then order[0] else SelectedIn(order[1..], m)
  }

  /** selectedKey; Go leaves the iteration order open. */
  method SelectedKey(m: Select) returns (key: string)
    ensures exists order :: IsOrder(order, m) && SelectedIn(order, m) == key
  {
    ghost var visited: seq<string> := [];
    var rest := m.Keys;
    while rest != {}
      invariant rest <= m.Keys
      invariant NoRepeats(visited)
      invariant forall x :: x in visited <==> x in m.Keys - rest
      invariant forall x | x in visited :: m[x].selected != 1
      decreases rest
    {
      var k :| k in rest;
      if m[k].selected == 1 {
        ghost var tail := Listing(rest - {k});
        SkipUnselected(visited, [k] + tail, m);
        ConcatNoRepeats([k], tail);
        ConcatNoRepeats(visited, [k] + tail);
        assert IsOrder(visited + ([k] + tail), m);
        return k;
      }
      visited := visited + [k];
      rest := rest - {k};
    }
    SkipUnselected(visited, [], m);
    assert visited + [] == visited;
    assert IsOrder(visited, m);
    key := "";
  }

  lemma {:induction false} SkipUnselected(before: seq<string>, order: seq<string>, m: Select)
    requires (forall x | x in before :: x in m && m[x].selected != 1) && forall x | x in order :: x in m
    ensures (forall x | x in before + order :: x in m) && SelectedIn(before + order, m) == SelectedIn(order, m)
  {
    if before == [] {
      assert before + order == order;
    } else {
      SkipUnselected(before[1..], order, m);
      assert (before + order)[1..] == before[1..] + order;
    }
  }

  /** In every order: a selected key if there is one, and "" otherwise. */
  lemma {:induction false} SelectedInFinds(order: seq<string>, m: Select)
    requires forall x | x in order :: x in m
    ensures var key := SelectedIn(order, m);
            if exists x :: x in order && m[x].selected == 1 then key in order && m[key].selected == 1 else key == ""
  {
    if order != [] && m[order[0]].selected != 1 {
      SelectedInFinds(order[1..], m);
      assert forall x | x in order :: x == order[0] || x in order[1..];
    }
  }

  ghost predicate OrderFree(m: Select) {
    forall o1, o2 | IsOrder(o1, m) && IsOrder(o2, m) :: SelectedIn(o1, m) == SelectedIn(o2, m)
  }

  /** A selected key is the result of the orders that visit it first. */
  lemma SomeOrderFinds(m: Select, key: string) returns (order: seq<string>)
    requires key in m && m[key].selected == 1
    ensures IsOrder(order, m) && SelectedIn(order, m) == key
  {
    var tail := Listing(m.Keys - {key});
    ConcatNoRepeats([key], tail);
    order := [key] + tail;
  }

  /** The result depends on the iteration order exactly when two keys are selected. */
  lemma SelectedKeyIsOrderFreeIff(m: Select)
    ensures OrderFree(m) <==> forall a, b | a in m && b in m && m[a].selected == 1 && m[b].selected == 1 :: a == b
  {
    if OrderFree(m) {
      forall a, b | a in m && b in m && m[a].selected == 1 && m[b].selected == 1
        ensures a == b
      {
        var o1 := SomeOrderFinds(m, a);
        var o2 := SomeOrderFinds(m, b);
      }
    } else {
      var o1, o2 :| IsOrder(o1, m) && IsOrder(o2, m) && SelectedIn(o1, m) != SelectedIn(o2, m);
      SelectedInFinds(o1, m);
      SelectedInFinds(o2, m);
      assert SelectedIn(o1, m) in m && SelectedIn(o2, m) in m;
    }
  }

  /** A select field that shows a value is read as that value in every order. */
  lemma ShownIsSelected(order: seq<string>, m: Select, value: string)
    requires Shows(m, value) && IsOrder(order, m)
    ensures SelectedIn(order, m) == value
  {
    SelectedInFinds(order, m);
  }

  method ReadSelect(m: Select, ghost value: string) returns (key: string)
    requires Shows(m, value)
    ensures key == value
  {
    key := SelectedKey(m);
    ghost var order :| IsOrder(order, m) && SelectedIn(order, m) == key;
    ShownIsSelected(order, m, value);
  }

  /** The decoding part of GetRule. */
  method DecodeRule(b: RuleBody, ghost s: StoredRule) returns (rule: FirewallRule)
    requires Displays(b, s)
    ensures rule == Decode(s)
  {
    var action := ReadSelect(b.action, s.action);
    var iface := ReadSelect(b.iface, s.iface);
    var direction := ReadSelect(b.direction, s.direction);
    var ipProtocol := ReadSelect(b.ipProtocol, s.ipProtocol);
    var protocol := ReadSelect(b.protocol, s.protocol);
    rule := FirewallRule(
      b.enabled == "1", action, iface, direction, ipProtocol, protocol,
      b.sourceNet, b.sourceNot == "1", b.sourcePort,
      b.destinationNet, b.destinationNot == "1", b.destinationPort,
      b.sequence, b.log == "1", b.quick == "1", b.description);
  }
}
