/** Cloud Controller V2 security groups
    (api/cloudcontroller/ccv2/security_group.go).

    `UnmarshalJSON` is modelled from the point where the JSON text has been
    parsed into the wire struct: the parsed struct is a `WireSecurityGroup`
    value, and the method copies it field by field into the receiver, filling
    a freshly allocated array of rules one element at a time.  The list
    callbacks that `GetSecurityGroups` and
    `getSpaceSecurityGroupsBySpaceAndLifecycle` hand to the paginator append
    to a list object in place. */
module SecurityGroups {
  import opened Wrappers

  // ---------------------------------------------------------------------
  // The decoded entity
  // ---------------------------------------------------------------------

  datatype SecurityGroupRule = SecurityGroupRule(description: string, destination: string, ports: string, protocol: string)

  /** The value of a `SecurityGroup`: its GUID, its name and its rules in order. */
  datatype SecurityGroupValue = SecurityGroupValue(guid: string, name: string, rules: seq<SecurityGroupRule>)

  /** The zero rule that a freshly made rules slice holds. */
  const ZeroRule := SecurityGroupRule("", "", "", "")

  /** The zero `SecurityGroup{}`. */
  const ZeroGroup := SecurityGroupValue("", "", [])

  // ---------------------------------------------------------------------
  // The parsed wire struct
  // ---------------------------------------------------------------------

  /** The part of the response's `metadata` object that is read. */
  datatype Metadata = Metadata(guid: string)

  datatype WireRule = WireRule(description: string, destination: string, ports: string, protocol: string)

  /** The response's `entity` object; `rules` is `None` when the key is
      absent or null. */
  datatype Entity = Entity(guid: string, name: string, rules: Option<seq<WireRule>>)

  datatype WireSecurityGroup = WireSecurityGroup(metadata: Metadata, entity: Entity)

  /** The error the JSON parser reported. */
  datatype JsonError = JsonError(message: string)

  /** The wire rules, a missing list read as an empty one (`len` of a nil slice is 0). */
  function WireRules(entity: Entity): seq<WireRule>
  {
    if entity.rules.Some? then entity.rules.value else []
  }

  function RuleFromWire(w: WireRule): SecurityGroupRule
  {
    SecurityGroupRule(w.description, w.destination, w.ports, w.protocol)
  }

  function RuleToWire(r: SecurityGroupRule): WireRule
  {
    WireRule(r.description, r.destination, r.ports, r.protocol)
  }

  /** What a successful `UnmarshalJSON` leaves in the receiver: the GUID from
      `metadata` (not `entity.guid`), the name from `entity`, and one rule per
      wire rule, field for field and in the same order. */
  function Decode(w: WireSecurityGroup): (v: SecurityGroupValue)
    ensures v.guid == w.metadata.guid
    ensures v.name == w.entity.name
    ensures |v.rules| == |WireRules(w.entity)|
    ensures forall i :: 0 <= i < |v.rules| ==>
      && v.rules[i].description == WireRules(w.entity)[i].description
      && v.rules[i].destination == WireRules(w.entity)[i].destination
      && v.rules[i].ports == WireRules(w.entity)[i].ports
      && v.rules[i].protocol == WireRules(w.entity)[i].protocol
  {
    var rs := WireRules(w.entity);
    SecurityGroupValue(w.metadata.guid, w.entity.name, seq(|rs|, i requires 0 <= i < |rs| => RuleFromWire(rs[i])))
  }

  /** A wire struct that decodes to `v`: the Cloud Controller's side of the exchange. */
  function Encode(v: SecurityGroupValue): WireSecurityGroup
  {
    WireSecurityGroup(Metadata(v.guid),
      Entity(v.guid, v.name, Some(seq(|v.rules|, i requires 0 <= i < |v.rules| => RuleToWire(v.rules[i])))))
  }

  /** Decoding an encoded security group gives it back. */
  lemma RoundTrip(v: SecurityGroupValue)
    ensures Decode(Encode(v)) == v
  {
    assert Decode(Encode(v)).rules == v.rules;
  }

  /** Two wire structs decode alike exactly when they agree on the metadata
      GUID, the entity name and the rules (a missing list agreeing with an
      empty one); `entity.guid` and the rest of the response play no part. */
  lemma DecodeSameExactly(w1: WireSecurityGroup, w2: WireSecurityGroup)
    ensures Decode(w1) == Decode(w2) <==>
      && w1.metadata.guid == w2.metadata.guid
      && w1.entity.name == w2.entity.name
      && WireRules(w1.entity) == WireRules(w2.entity)
  {
    var r1, r2 := WireRules(w1.entity), WireRules(w2.entity);
    if w1.metadata.guid == w2.metadata.guid && w1.entity.name == w2.entity.name && r1 == r2 {
      assert Decode(w1).rules == Decode(w2).rules;
    }
    if Decode(w1) == Decode(w2) {
      assert |r1| == |r2|;
      forall i | 0 <= i < |r1| ensures r1[i] == r2[i] {
        assert Decode(w1).rules[i] == Decode(w2).rules[i];
      }
    }
  }

  /** `entity.guid` is ignored. */
  lemma DecodeIgnoresEntityGuid(w: WireSecurityGroup, g: string)
    ensures Decode(w.(entity := w.entity.(guid := g))) == Decode(w)
  {
    DecodeSameExactly(w.(entity := w.entity.(guid := g)), w);
  }

  /** A response without rules decodes to a group with no rules. */
  lemma MissingRulesDecodeEmpty(w: WireSecurityGroup)
    requires w.entity.rules.None?
    ensures Decode(w).rules == []
  {
  }

  // ---------------------------------------------------------------------
  // The receiver of UnmarshalJSON
  // ---------------------------------------------------------------------

  /** A `SecurityGroup` whose fields `UnmarshalJSON` assigns in place. */
  class SecurityGroup {
    var guid: string
    var name: string
    var rules: array<SecurityGroupRule>

    /** `SecurityGroup{}`. */
    constructor ()
      ensures Value() == ZeroGroup
      ensures fresh(rules)
    {
      guid := "";
      name := "";
      rules := new SecurityGroupRule[0];
    }

    function Value(): SecurityGroupValue
      reads this, rules
    {
      SecurityGroupValue(guid, name, rules[..])
    }

    /** `UnmarshalJSON`, after the parse: a parse error is returned and the
        receiver is left as it was; otherwise the receiver holds the decoded
        group, its rules in a newly allocated array. */
    method UnmarshalJSON(parsed: Result<WireSecurityGroup, JsonError>) returns (err: Option<JsonError>)
      modifies this
      ensures parsed.Failure? ==> err == Some(parsed.error) && unchanged(this) && Value() == old(Value())
      ensures parsed.Success? ==> err.None? && fresh(rules) && Value() == Decode(parsed.value)
    {
      if parsed.Failure? {
        return Some(parsed.error);
      }
      var w := parsed.value;
      guid := w.metadata.guid;
      name := w.entity.name;
      var wireRules := WireRules(w.entity);
      var rs := new SecurityGroupRule[|wireRules|](_ => ZeroRule);
      rules := rs;
      var i := 0;
      while i < |wireRules|
        modifies rs
        invariant 0 <= i <= |wireRules|
        invariant forall j :: 0 <= j < i ==> rs[j] == RuleFromWire(wireRules[j])
      {
        var wr := wireRules[i];
        rs[i] := rs[i].(description := wr.description);
        rs[i] := rs[i].(destination := wr.destination);
        rs[i] := rs[i].(ports := wr.ports);
        rs[i] := rs[i].(protocol := wr.protocol);
        i := i + 1;
      }
      assert rs[..] == Decode(w).rules;
      return None;
    }
  }

  // ---------------------------------------------------------------------
  // The list callbacks
  // ---------------------------------------------------------------------

  /** An item the paginator hands to the callback: a decoded security group
      or a value of some other type. */
  datatype ListItem = SecurityGroupItem(group: SecurityGroupValue) | OtherItem(description: string)

  /** `ccerror.UnknownObjectInListError`, and the request error the
      lifecycle callback captures from its enclosing function. */
  datatype CCError =
    | UnknownObjectInListError(expected: SecurityGroupValue, unexpected: ListItem)
    | RequestError(message: string)

  /** The list after one callback, and the callback's error, for a callback
      that returns `ok` when it accepts the item. */
  function Accept(groups: seq<SecurityGroupValue>, item: ListItem, ok: Option<CCError>)
    : (r: (seq<SecurityGroupValue>, Option<CCError>))
    ensures item.SecurityGroupItem? ==> r.0 == groups + [item.group] && r.1 == ok
    ensures !item.SecurityGroupItem? ==> r.0 == groups && r.1 == Some(UnknownObjectInListError(ZeroGroup, item))
  {
    match item
    case SecurityGroupItem(g) => (groups + [g], ok)
    case OtherItem(_) => (groups, Some(UnknownObjectInListError(ZeroGroup, item)))
  }

  /** The security groups among `items`, in order. */
  function GroupsIn(items: seq<ListItem>): seq<SecurityGroupValue>
  {
    if items == [] then []
    else
      var last := items[|items| - 1];
      GroupsIn(items[..|items| - 1]) + (if last.SecurityGroupItem? then [last.group] else [])
  }

  /** The list after the callback has been called on each of `items` in turn,
      whatever errors it returned on the way. */
  function Collected(groups: seq<SecurityGroupValue>, items: seq<ListItem>): seq<SecurityGroupValue>
  {
    if items == [] then groups
    else Accept(Collected(groups, items[..|items| - 1]), items[|items| - 1], None).0
  }

  /** Calling the callback on items one by one appends exactly their security
      groups, in arrival order, and nothing else. */
  lemma {:induction false} CollectedAppendsGroupsIn(groups: seq<SecurityGroupValue>, items: seq<ListItem>)
    ensures Collected(groups, items) == groups + GroupsIn(items)
    decreases |items|
  {
    if items != [] {
      CollectedAppendsGroupsIn(groups, items[..|items| - 1]);
    }
  }

  /** The groups of consecutive batches are the groups of each batch in turn. */
  lemma {:induction false} GroupsInConcat(a: seq<ListItem>, b: seq<ListItem>)
    ensures GroupsIn(a + b) == GroupsIn(a) + GroupsIn(b)
    decreases |b|
  {
    if b == [] {
      assert a + b == a;
    } else {
      var b' := b[..|b| - 1];
      assert (a + b)[..|a + b| - 1] == a + b';
      GroupsInConcat(a, b');
    }
  }

  /** Every collected group arrived as an item, and there are never more
      groups than items. */
  lemma {:induction false} GroupsInFromItems(items: seq<ListItem>)
    ensures |GroupsIn(items)| <= |items|
    ensures forall g :: g in GroupsIn(items) ==> SecurityGroupItem(g) in items
    decreases |items|
  {
    if items != [] {
      var front := items[..|items| - 1];
      GroupsInFromItems(front);
      assert forall x :: x in front ==> x in items;
    }
  }

  /** The list that both callbacks append to. */
  class SecurityGroupList {
    var groups: seq<SecurityGroupValue>

    /** `var securityGroupsList []SecurityGroup`. */
    constructor ()
      ensures groups == []
    {
      groups := [];
    }

    /** The `GetSecurityGroups` callback: a security group is appended and
        nil returned; any other item is refused with
        `UnknownObjectInListError` and the list is left as it was. */
    method AppendItem(item: ListItem) returns (err: Option<CCError>)
      modifies this
      ensures (groups, err) == Accept(old(groups), item, None)
    {
      if item.SecurityGroupItem? {
        groups := groups + [item.group];
      } else {
        return Some(UnknownObjectInListError(ZeroGroup, item));
      }
      return None;
    }

    /** The `getSpaceSecurityGroupsBySpaceAndLifecycle` callback: as
        `AppendItem`, but on an accepted item it returns the request error
        `captured` from its enclosing function rather than nil. */
    method AppendItemCapturing(item: ListItem, captured: Option<CCError>) returns (err: Option<CCError>)
      modifies this
      ensures (groups, err) == Accept(old(groups), item, captured)
    {
      if item.SecurityGroupItem? {
        groups := groups + [item.group];
      } else {
        return Some(UnknownObjectInListError(ZeroGroup, item));
      }
      return captured;
    }
  }
}
