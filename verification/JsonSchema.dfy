/** The JSON-schema validator the tools use, and what its verdict means.

    Property order: the code ranges over a Go map when it validates the
    properties of an object, and Go leaves that order open.  `Order` is any
    choice of it, made anew at every place of every run. */
module JsonSchema {
  import opened Options
  import opened GoValues

  /** `Panicked` is the run-time panic of `==` on two maps or two slices. */
  datatype Outcome = Accepted | Rejected | Panicked

  datatype Step = Branch(branch: nat) | Property(key: string) | Item(index: nat)

  /** Where a run of the validator is: the steps taken from the start. */
  type Site = seq<Step>

  type Order = (Site, set<string>) -> seq<string>

  /** Every key is visited, and nothing else is. */
  ghost predicate IsOrder(ord: Order) {
    forall site, keys, k :: k in ord(site, keys) <==> k in keys
  }

  function Then(first: Outcome, second: Outcome): Outcome {
    if first.Accepted? then second else first
  }

  function Check(ok: bool): Outcome {
    if ok then Accepted else Rejected
  }

  // ----- Numbers and equality

  function NumberOf(v: Value): Option<real> {
    match v
    case Float(x) => Some(x)
    case Int(n) => Some(n as real)
    case Number(_, parsed) => parsed
    case _ => None
  }

  const MinInt64 := -0x8000_0000_0000_0000
  const TwoTo63 := 0x8000_0000_0000_0000

  /** `number == float64(int64(number))`; out of range the conversion yields the
      least int64. */
  predicate IsInteger(x: real) {
    x.Floor as real == x && MinInt64 <= x.Floor < TwoTo63
  }

  datatype Equality = Equal | Different | Incomparable

  /** `equal`, including Go's panic on values that cannot be compared. */
  function Compare(l: Value, r: Value): Equality {
    match (NumberOf(l), NumberOf(r))
    case (Some(x), Some(y)) => if x == y then Equal else Different
    case _ =>
      if (l.List? && r.List?) || (l.Object? && r.Object?) then Incomparable
      else if l == r then Equal
      else Different
  }

  function CheckEnum(enum: seq<Value>, value: Value, i: nat): Outcome
    requires i <= |enum|
    decreases |enum| - i
  {
    if i == |enum| then Rejected
    else
      match Compare(enum[i], value)
      case Equal => Accepted
      case Incomparable => Panicked
      case Different => CheckEnum(enum, value, i + 1)
  }

  // ----- Keywords

  datatype Kind = ObjectKind | ArrayKind | StringKind | IntegerKind | NumberKind | BooleanKind | AnyKind | UnknownKind

  function KindOf(schema: Fields): Kind {
    var name := StringOr(Get(schema, "type"));
    if name == "object" then ObjectKind
    else if name == "array" then ArrayKind
    else if name == "string" then StringKind
    else if name == "integer" then IntegerKind
    else if name == "number" then NumberKind
    else if name == "boolean" then BooleanKind
    else if name == "" then AnyKind
    else UnknownKind
  }

  function FieldsOr(v: Value): Fields {
    if v.Object? then v.fields else map[]
  }

  function Properties(schema: Fields): Fields {
    FieldsOr(Get(schema, "properties"))
  }

  predicate AtMost(x: real, limit: Value) {
    NumberOf(limit).Some? ==> x <= NumberOf(limit).value
  }

  predicate AtLeast(x: real, limit: Value) {
    NumberOf(limit).Some? ==> x >= NumberOf(limit).value
  }

  /** A count or a number lies between the limits two keywords set. */
  predicate InLimits(schema: Fields, low: string, high: string, x: real) {
    AtMost(x, Get(schema, high)) && AtLeast(x, Get(schema, low))
  }

  predicate RequiredPresent(required: Value, fields: Fields) {
    required.List? ==> forall n :: n in required.items ==> StringOr(n) in fields
  }

  predicate NoneUnknown(schema: Fields, fields: Fields) {
    Get(schema, "additionalProperties") == Bool(false) ==> forall k :: k in fields ==> k in Properties(schema)
  }

  // ----- The discriminated anyOf

  function Tag(value: Fields): string {
    StringOr(Get(value, "type"))
  }

  /** The `enum` a branch puts on the property `type`. */
  function TagEnum(branch: Value): Value {
    Get(FieldsOr(Get(FieldsOr(Get(FieldsOr(branch), "properties")), "type")), "enum")
  }

  predicate HasTag(branch: Value, tag: string) {
    TagEnum(branch).List? && Str(tag) in TagEnum(branch).items
  }

  /** The first branch whose tags include the value's, from branch `i` on. */
  function SelectFrom(branches: seq<Value>, tag: string, i: nat): (r: Option<nat>)
    requires i <= |branches|
    ensures r.Some? ==> i <= r.value < |branches| && HasTag(branches[r.value], tag)
    ensures forall j :: i <= j < (if r.Some? then r.value else |branches|) ==> !HasTag(branches[j], tag)
    decreases |branches| - i
  {
    if i == |branches| then None else if HasTag(branches[i], tag) then Some(i) else SelectFrom(branches, tag, i + 1)
  }

  function SelectBranch(branches: seq<Value>, value: Value): (r: Option<nat>)
    ensures r.Some? ==> r.value < |branches| && branches[r.value].Object?
  {
    if value.Object? then SelectFrom(branches, Tag(value.fields), 0) else None
  }

  // ----- The validator

  function Validate(ord: Order, schema: Value, value: Value, site: Site): Outcome
    requires schema.Object?
    decreases schema, 4, 0
  {
    var enum := Get(schema.fields, "enum");
    Then(if enum.List? then CheckEnum(enum.items, value, 0) else Accepted,
    Then(CheckAnyOf(ord, schema, value, site), CheckType(ord, schema, value, site)))
  }

  function CheckAnyOf(ord: Order, schema: Value, value: Value, site: Site): Outcome
    requires schema.Object?
    decreases schema, 3, 0
  {
    var branches := Get(schema.fields, "anyOf");
    if !branches.List? then Accepted
    else
      match SelectBranch(branches.items, value)
      case Some(i) => Validate(ord, branches.items[i], value, site + [Branch(i)])
      case None => TryBranches(ord, schema, value, site, 0)
  }

  function TryBranches(ord: Order, schema: Value, value: Value, site: Site, i: nat): Outcome
    requires schema.Object? && Get(schema.fields, "anyOf").List? && i <= |Get(schema.fields, "anyOf").items|
    decreases schema, 2, |Get(schema.fields, "anyOf").items| - i
  {
    var branches := Get(schema.fields, "anyOf").items;
    if i == |branches| then Rejected
    else
      var first := if branches[i].Object? then Validate(ord, branches[i], value, site + [Branch(i)]) else Rejected;
      if first.Rejected? then TryBranches(ord, schema, value, site, i + 1) else first
  }

  function CheckType(ord: Order, schema: Value, value: Value, site: Site): Outcome
    requires schema.Object?
    decreases schema, 3, 0
  {
    match KindOf(schema.fields)
    case ObjectKind =>
      if !value.Object? then Rejected
      else
        Then(Check(RequiredPresent(Get(schema.fields, "required"), value.fields)),
        Then(Check(NoneUnknown(schema.fields, value.fields)),
             CheckProperties(ord, schema, value, site, ord(site, value.fields.Keys), 0)))
    case ArrayKind =>
      if !value.List? then Rejected
      else
        Then(Check(InLimits(schema.fields, "minItems", "maxItems", |value.items| as real)),
             if Get(schema.fields, "items").Object? then CheckItems(ord, Get(schema.fields, "items"), value.items, site, 0) else Accepted)
    case StringKind =>
      Check(value.Str? && InLimits(schema.fields, "minLength", "maxLength", |value.s| as real))
    case IntegerKind =>
      Check(NumberOf(value).Some? && IsInteger(NumberOf(value).value)
            && InLimits(schema.fields, "minimum", "maximum", NumberOf(value).value))
    case NumberKind =>
      Check(NumberOf(value).Some? && InLimits(schema.fields, "minimum", "maximum", NumberOf(value).value))
    case BooleanKind => Check(value.Bool?)
    case AnyKind => Accepted
    case UnknownKind => Rejected
  }

  function CheckProperties(ord: Order, schema: Value, value: Value, site: Site, keys: seq<string>, i: nat): Outcome
    requires schema.Object? && value.Object? && i <= |keys|
    decreases schema, 2, |keys| - i
  {
    if i == |keys| then Accepted
    else
      var property := Get(Properties(schema.fields), keys[i]);
      Then(if keys[i] in value.fields && property.Object?
             then Validate(ord, property, value.fields[keys[i]], site + [Property(keys[i])]) else Accepted,
           CheckProperties(ord, schema, value, site, keys, i + 1))
  }

  function CheckItems(ord: Order, items: Value, values: seq<Value>, site: Site, i: nat): Outcome
    requires items.Object? && i <= |values|
    decreases items, 5, |values| - i
  {
    if i == |values| then Accepted
    else Then(Validate(ord, items, values[i], site + [Item(i)]), CheckItems(ord, items, values, site, i + 1))
  }

  // ----- What a schema means

  /** Equality of two values of which one, at least, is no list or object. */
  predicate SameScalar(l: Value, r: Value) {
    match (NumberOf(l), NumberOf(r))
    case (Some(x), Some(y)) => x == y
    case _ =>
      match l
      case List(_) => false
      case Object(_) => false
      case _ => l == r
  }

  /** The value satisfies the schema.  `standard` chooses between `anyOf` as the
      standard has it and the discriminated reading of the code. */
  ghost predicate Accepts(standard: bool, schema: Value, value: Value)
    requires schema.Object?
    decreases schema, 1
  {
    && (Get(schema.fields, "enum").List? ==>
          exists i :: 0 <= i < |Get(schema.fields, "enum").items| && SameScalar(Get(schema.fields, "enum").items[i], value))
    && AcceptsAnyOf(standard, schema, value)
    && AcceptsType(standard, schema, value)
  }

  ghost predicate AcceptsSome(standard: bool, schema: Value, value: Value)
    requires schema.Object? && Get(schema.fields, "anyOf").List?
    decreases schema, 0, 0
  {
    var branches := Get(schema.fields, "anyOf").items;
    exists i :: 0 <= i < |branches| && branches[i].Object? && Accepts(standard, branches[i], value)
  }

  ghost predicate AcceptsAnyOf(standard: bool, schema: Value, value: Value)
    requires schema.Object?
    decreases schema, 0, 1
  {
    var branches := Get(schema.fields, "anyOf");
    branches.List? ==>
      match SelectBranch(branches.items, value)
      case Some(i) =>
        if standard then AcceptsSome(standard, schema, value) else Accepts(standard, branches.items[i], value)
      case None => AcceptsSome(standard, schema, value)
  }

  ghost predicate AcceptsType(standard: bool, schema: Value, value: Value)
    requires schema.Object?
    decreases schema, 0
  {
    var properties := Properties(schema.fields);
    match KindOf(schema.fields)
    case ObjectKind =>
      && value.Object?
      && RequiredPresent(Get(schema.fields, "required"), value.fields)
      && NoneUnknown(schema.fields, value.fields)
      && forall k :: k in value.fields && Get(properties, k).Object? ==>
           Accepts(standard, Get(properties, k), value.fields[k])
    case ArrayKind =>
      && value.List?
      && InLimits(schema.fields, "minItems", "maxItems", |value.items| as real)
      && (Get(schema.fields, "items").Object? ==>
            forall i :: 0 <= i < |value.items| ==> Accepts(standard, Get(schema.fields, "items"), value.items[i]))
    case StringKind =>
      value.Str? && InLimits(schema.fields, "minLength", "maxLength", |value.s| as real)
    case IntegerKind =>
      && NumberOf(value).Some? && IsInteger(NumberOf(value).value)
      && InLimits(schema.fields, "minimum", "maximum", NumberOf(value).value)
    case NumberKind =>
      NumberOf(value).Some? && InLimits(schema.fields, "minimum", "maximum", NumberOf(value).value)
    case BooleanKind => value.Bool?
    case AnyKind => true
    case UnknownKind => false
  }

  /** No `enum` in the schema, however deep, lists an array or an object. */
  ghost predicate ScalarEnums(schema: Value)
    requires schema.Object?
    decreases schema
  {
    && (Get(schema.fields, "enum").List? ==> ScalarsOnly(Get(schema.fields, "enum").items))
    && (Get(schema.fields, "anyOf").List? ==>
          var branches := Get(schema.fields, "anyOf").items;
          forall i :: 0 <= i < |branches| && branches[i].Object? ==> ScalarEnums(branches[i]))
    && (forall k :: k in Properties(schema.fields) && Properties(schema.fields)[k].Object? ==>
          ScalarEnums(Properties(schema.fields)[k]))
    && (Get(schema.fields, "items").Object? ==> ScalarEnums(Get(schema.fields, "items")))
  }

  ghost predicate ScalarsOnly(values: seq<Value>) {
    forall i :: 0 <= i < |values| ==> !values[i].List? && !values[i].Object?
  }

  // ----- The validator decides the meaning

  /** The outcome is a panic or the right verdict. */
  predicate Decides(outcome: Outcome, accepts: bool) {
    outcome.Panicked? || outcome == Check(accepts)
  }

  lemma {:induction false} EnumIsMembership(enum: seq<Value>, value: Value, i: nat)
    requires i <= |enum|
    ensures Decides(CheckEnum(enum, value, i), exists j :: i <= j < |enum| && SameScalar(enum[j], value))
    decreases |enum| - i
  {
    if i < |enum| {
      EnumIsMembership(enum, value, i + 1);
    }
  }

  /** Whenever the validator returns, its verdict is the meaning of the schema. */
  lemma {:induction false} ValidateDecides(ord: Order, schema: Value, value: Value, site: Site)
    requires schema.Object? && IsOrder(ord)
    ensures Decides(Validate(ord, schema, value, site), Accepts(false, schema, value))
    decreases schema, 4, 0
  {
    var enum := Get(schema.fields, "enum");
    if enum.List? {
      EnumIsMembership(enum.items, value, 0);
    }
    AnyOfDecides(ord, schema, value, site);
    TypeDecides(ord, schema, value, site);
  }

  lemma {:induction false} AnyOfDecides(ord: Order, schema: Value, value: Value, site: Site)
    requires schema.Object? && IsOrder(ord)
    ensures Decides(CheckAnyOf(ord, schema, value, site), AcceptsAnyOf(false, schema, value))
    decreases schema, 3, 0
  {
    var branches := Get(schema.fields, "anyOf");
    if branches.List? {
      match SelectBranch(branches.items, value)
      case Some(i) => ValidateDecides(ord, branches.items[i], value, site + [Branch(i)]);
      case None => BranchesDecide(ord, schema, value, site, 0);
    }
  }

  lemma {:induction false} BranchesDecide(ord: Order, schema: Value, value: Value, site: Site, i: nat)
    requires schema.Object? && IsOrder(ord)
    requires Get(schema.fields, "anyOf").List? && i <= |Get(schema.fields, "anyOf").items|
    ensures var branches := Get(schema.fields, "anyOf").items;
            Decides(TryBranches(ord, schema, value, site, i),
                    exists j :: i <= j < |branches| && branches[j].Object? && Accepts(false, branches[j], value))
    decreases schema, 2, |Get(schema.fields, "anyOf").items| - i
  {
    var branches := Get(schema.fields, "anyOf").items;
    if i < |branches| {
      if branches[i].Object? {
        ValidateDecides(ord, branches[i], value, site + [Branch(i)]);
      }
      BranchesDecide(ord, schema, value, site, i + 1);
    }
  }

  lemma {:induction false} TypeDecides(ord: Order, schema: Value, value: Value, site: Site)
    requires schema.Object? && IsOrder(ord)
    ensures Decides(CheckType(ord, schema, value, site), AcceptsType(false, schema, value))
    decreases schema, 3, 0
  {
    match KindOf(schema.fields)
    case ObjectKind =>
      if value.Object? {
        var keys := ord(site, value.fields.Keys);
        PropertiesDecide(ord, schema, value, site, keys, 0);
        forall k | k in value.fields
          ensures exists j :: 0 <= j < |keys| && keys[j] == k
        {
          assert k in keys;
        }
      }
    case ArrayKind =>
      if value.List? && Get(schema.fields, "items").Object? {
        ItemsDecide(ord, Get(schema.fields, "items"), value.items, site, 0);
      }
    case _ =>
  }

  lemma {:induction false} PropertiesDecide(ord: Order, schema: Value, value: Value, site: Site, keys: seq<string>, i: nat)
    requires schema.Object? && IsOrder(ord) && value.Object? && i <= |keys|
    ensures var properties := Properties(schema.fields);
            Decides(CheckProperties(ord, schema, value, site, keys, i),
                    forall j :: i <= j < |keys| && keys[j] in value.fields && Get(properties, keys[j]).Object? ==>
                      Accepts(false, Get(properties, keys[j]), value.fields[keys[j]]))
    decreases schema, 2, |keys| - i
  {
    if i < |keys| {
      var property := Get(Properties(schema.fields), keys[i]);
      if keys[i] in value.fields && property.Object? {
        ValidateDecides(ord, property, value.fields[keys[i]], site + [Property(keys[i])]);
      }
      PropertiesDecide(ord, schema, value, site, keys, i + 1);
    }
  }

  lemma {:induction false} ItemsDecide(ord: Order, items: Value, values: seq<Value>, site: Site, i: nat)
    requires items.Object? && IsOrder(ord) && i <= |values|
    ensures Decides(CheckItems(ord, items, values, site, i), forall j :: i <= j < |values| ==> Accepts(false, items, values[j]))
    decreases items, 5, |values| - i
  {
    if i < |values| {
      ValidateDecides(ord, items, values[i], site + [Item(i)]);
      ItemsDecide(ord, items, values, site, i + 1);
    }
  }

  /** Any two orders that return a verdict return the same one. */
  lemma VerdictIsUnique(first: Order, second: Order, schema: Value, value: Value)
    requires schema.Object? && IsOrder(first) && IsOrder(second)
    requires Validate(first, schema, value, []) != Panicked && Validate(second, schema, value, []) != Panicked
    ensures Validate(first, schema, value, []) == Validate(second, schema, value, [])
  {
    ValidateDecides(first, schema, value, []);
    ValidateDecides(second, schema, value, []);
  }

  // ----- Where the panic comes from

  /** The check of an `enum` panics exactly when, among the candidates, one that
      cannot be compared with the value comes before any that equals it. */
  lemma {:induction false} EnumPanicsIff(enum: seq<Value>, value: Value, i: nat)
    requires i <= |enum|
    ensures CheckEnum(enum, value, i).Panicked? <==>
            exists j :: i <= j < |enum| && Compare(enum[j], value).Incomparable? &&
                        forall k :: i <= k < j ==> Compare(enum[k], value).Different?
    decreases |enum| - i
  {
    if i < |enum| {
      EnumPanicsIff(enum, value, i + 1);
    }
  }

  /** An `enum` can be checked against every value without a panic exactly when it
      lists scalars only. */
  lemma EnumSafeIff(enum: seq<Value>)
    ensures (forall value :: !CheckEnum(enum, value, 0).Panicked?) <==> ScalarsOnly(enum)
  {
    forall value
      ensures ScalarsOnly(enum) ==> !CheckEnum(enum, value, 0).Panicked?
    {
      EnumPanicsIff(enum, value, 0);
    }
    if !ScalarsOnly(enum) {
      var j := FirstComposite(enum, 0);
      forall k | 0 <= k < j
        ensures Compare(enum[k], if enum[j].List? then List([]) else Object(map[])).Different?
      {
      }
      EnumPanicsIff(enum, if enum[j].List? then List([]) else Object(map[]), 0);
    }
  }

  lemma {:induction false} FirstComposite(enum: seq<Value>, i: nat) returns (j: nat)
    requires i <= |enum| && exists k :: i <= k < |enum| && (enum[k].List? || enum[k].Object?)
    ensures i <= j < |enum| && (enum[j].List? || enum[j].Object?)
    ensures forall k :: i <= k < j ==> !enum[k].List? && !enum[k].Object?
    decreases |enum| - i
  {
    if enum[i].List? || enum[i].Object? {
      j := i;
    } else {
      j := FirstComposite(enum, i + 1);
    }
  }

  // ----- The discriminated anyOf against the standard

  /** What the code accepts, the standard accepts: some branch of every `anyOf`
      is satisfied. */
  lemma {:induction false} AcceptedIsStandard(schema: Value, value: Value)
    requires schema.Object? && Accepts(false, schema, value)
    ensures Accepts(true, schema, value)
    decreases schema, 1
  {
    var branches := Get(schema.fields, "anyOf");
    if branches.List? {
      var selected := SelectBranch(branches.items, value);
      var i: nat;
      if selected.Some? {
        i := selected.value;
      } else {
        assert AcceptsSome(false, schema, value);
        i :| 0 <= i < |branches.items| && branches.items[i].Object? && Accepts(false, branches.items[i], value);
      }
      AcceptedIsStandard(branches.items[i], value);
      assert AcceptsSome(true, schema, value);
    }
    AcceptedTypeIsStandard(schema, value);
  }

  lemma {:induction false} AcceptedTypeIsStandard(schema: Value, value: Value)
    requires schema.Object? && AcceptsType(false, schema, value)
    ensures AcceptsType(true, schema, value)
    decreases schema, 0
  {
    if value.Object? && KindOf(schema.fields).ObjectKind? {
      forall k | k in value.fields && Get(Properties(schema.fields), k).Object?
        ensures Accepts(true, Get(Properties(schema.fields), k), value.fields[k])
      {
        AcceptedIsStandard(Get(Properties(schema.fields), k), value.fields[k]);
      }
    }
    if value.List? && KindOf(schema.fields).ArrayKind? && Get(schema.fields, "items").Object? {
      forall i | 0 <= i < |value.items|
        ensures Accepts(true, Get(schema.fields, "items"), value.items[i])
      {
        AcceptedIsStandard(Get(schema.fields, "items"), value.items[i]);
      }
    }
  }

  /** A branch is one case of a tagged union: an object that must have a `type`,
      listed among the branch's own tags, which are strings. */
  ghost predicate TaggedBranch(branch: Value) {
    && branch.Object? && KindOf(branch.fields).ObjectKind?
    && Get(branch.fields, "required").List? && Str("type") in Get(branch.fields, "required").items
    && TagEnum(branch).List?
    && forall t :: t in TagEnum(branch).items ==> t.Str?
  }

  /** Every object among the branches is a case, and no two cases share a tag. */
  ghost predicate TaggedUnion(branches: seq<Value>) {
    && (forall i :: 0 <= i < |branches| && branches[i].Object? ==> TaggedBranch(branches[i]))
    && (forall i, j, tag :: 0 <= i < j < |branches| && HasTag(branches[i], tag) ==> !HasTag(branches[j], tag))
  }

  /** Every `anyOf` in the schema, however deep, is a tagged union. */
  ghost predicate Discriminated(schema: Value)
    requires schema.Object?
    decreases schema
  {
    && (Get(schema.fields, "anyOf").List? ==>
          var branches := Get(schema.fields, "anyOf").items;
          && TaggedUnion(branches)
          && forall i :: 0 <= i < |branches| && branches[i].Object? ==> Discriminated(branches[i]))
    && (forall k :: k in Properties(schema.fields) && Properties(schema.fields)[k].Object? ==>
          Discriminated(Properties(schema.fields)[k]))
    && (Get(schema.fields, "items").Object? ==> Discriminated(Get(schema.fields, "items")))
  }

  /** What a case accepts is an object that carries one of its tags. */
  lemma CaseHasTag(branch: Value, value: Value)
    requires TaggedBranch(branch) && Accepts(true, branch, value)
    ensures value.Object? && HasTag(branch, Tag(value.fields))
  {
    var typeSchema := Get(Properties(branch.fields), "type");
    assert Str("type") in Get(branch.fields, "required").items && StringOr(Str("type")) in value.fields;
    assert TagEnum(branch) == Get(FieldsOr(typeSchema), "enum");
    assert typeSchema.Object? && Accepts(true, typeSchema, value.fields["type"]);
    var i :| 0 <= i < |TagEnum(branch).items| && SameScalar(TagEnum(branch).items[i], value.fields["type"]);
    assert TagEnum(branch).items[i] in TagEnum(branch).items;
  }

  /** On tagged unions the shortcut loses nothing: the code accepts exactly what
      the standard accepts. */
  lemma {:induction false} StandardIsAccepted(schema: Value, value: Value)
    requires schema.Object? && Discriminated(schema) && Accepts(true, schema, value)
    ensures Accepts(false, schema, value)
    decreases schema
  {
    var branches := Get(schema.fields, "anyOf");
    if branches.List? {
      assert AcceptsSome(true, schema, value);
      var i :| 0 <= i < |branches.items| && branches.items[i].Object? && Accepts(true, branches.items[i], value);
      CaseHasTag(branches.items[i], value);
      StandardIsAccepted(branches.items[i], value);
      var selected := SelectBranch(branches.items, value);
      assert selected.Some? && selected.value == i;
    }
    if value.Object? && KindOf(schema.fields).ObjectKind? {
      forall k | k in value.fields && Get(Properties(schema.fields), k).Object?
        ensures Accepts(false, Get(Properties(schema.fields), k), value.fields[k])
      {
        StandardIsAccepted(Get(Properties(schema.fields), k), value.fields[k]);
      }
    }
    if value.List? && KindOf(schema.fields).ArrayKind? && Get(schema.fields, "items").Object? {
      forall i | 0 <= i < |value.items|
        ensures Accepts(false, Get(schema.fields, "items"), value.items[i])
      {
        StandardIsAccepted(Get(schema.fields, "items"), value.items[i]);
      }
    }
  }

  /** The shortcut overrules the standard somewhere in the schema: the selected branch
      is not satisfied, or what satisfies the standard is itself overruled. */
  ghost predicate Overruled(schema: Value, value: Value)
    requires schema.Object?
    decreases schema, 1
  {
    OverruledByBranch(schema, value) || OverruledInside(schema, value)
  }

  ghost predicate OverruledByBranch(schema: Value, value: Value)
    requires schema.Object?
    decreases schema, 0
  {
    var branches := Get(schema.fields, "anyOf");
    branches.List? &&
    match SelectBranch(branches.items, value)
    case Some(i) => !Accepts(true, branches.items[i], value) || Overruled(branches.items[i], value)
    case None =>
      forall j :: 0 <= j < |branches.items| && branches.items[j].Object? && Accepts(true, branches.items[j], value) ==>
        Overruled(branches.items[j], value)
  }

  ghost predicate OverruledInside(schema: Value, value: Value)
    requires schema.Object?
    decreases schema, 0
  {
    var properties, items := Properties(schema.fields), Get(schema.fields, "items");
    match KindOf(schema.fields)
    case ObjectKind =>
      value.Object? && exists k :: k in value.fields && Get(properties, k).Object? && Overruled(Get(properties, k), value.fields[k])
    case ArrayKind =>
      value.List? && items.Object? && exists i :: 0 <= i < |value.items| && Overruled(items, value.items[i])
    case _ => false
  }

  /** The code accepts exactly what the standard accepts and the shortcut does not
      overrule. */
  lemma ShortcutAcceptsIff(schema: Value, value: Value)
    requires schema.Object?
    ensures Accepts(false, schema, value) <==> Accepts(true, schema, value) && !Overruled(schema, value)
  {
    if Accepts(false, schema, value) {
      AcceptedIsStandard(schema, value);
    }
    if Accepts(true, schema, value) {
      ShortcutAgreesIff(schema, value);
    }
  }

  lemma {:induction false} ShortcutAgreesIff(schema: Value, value: Value)
    requires schema.Object? && Accepts(true, schema, value)
    ensures Accepts(false, schema, value) <==> !Overruled(schema, value)
    decreases schema, 1
  {
    BranchesAgreeIff(schema, value);
    InsideAgreesIff(schema, value);
  }

  lemma {:induction false} BranchesAgreeIff(schema: Value, value: Value)
    requires schema.Object? && AcceptsAnyOf(true, schema, value)
    ensures AcceptsAnyOf(false, schema, value) <==> !OverruledByBranch(schema, value)
    decreases schema, 0
  {
    var branches := Get(schema.fields, "anyOf");
    if branches.List? {
      forall j | 0 <= j < |branches.items| && branches.items[j].Object?
        ensures Accepts(false, branches.items[j], value) <==>
                Accepts(true, branches.items[j], value) && !Overruled(branches.items[j], value)
      {
        if Accepts(true, branches.items[j], value) {
          ShortcutAgreesIff(branches.items[j], value);
        }
        if Accepts(false, branches.items[j], value) {
          AcceptedIsStandard(branches.items[j], value);
        }
      }
      assert SelectBranch(branches.items, value).None? ==>
        (AcceptsAnyOf(false, schema, value) <==> AcceptsSome(false, schema, value));
    }
  }

  lemma {:induction false} InsideAgreesIff(schema: Value, value: Value)
    requires schema.Object? && AcceptsType(true, schema, value)
    ensures AcceptsType(false, schema, value) <==> !OverruledInside(schema, value)
    decreases schema, 0
  {
    match KindOf(schema.fields)
    case ObjectKind =>
      forall k | k in value.fields && Get(Properties(schema.fields), k).Object?
        ensures Accepts(false, Get(Properties(schema.fields), k), value.fields[k]) <==>
                !Overruled(Get(Properties(schema.fields), k), value.fields[k])
      {
        ShortcutAgreesIff(Get(Properties(schema.fields), k), value.fields[k]);
      }
    case ArrayKind =>
      var items := Get(schema.fields, "items");
      if items.Object? {
        forall i | 0 <= i < |value.items|
          ensures Accepts(false, items, value.items[i]) <==> !Overruled(items, value.items[i])
        {
          ShortcutAgreesIff(items, value.items[i]);
        }
      }
    case _ =>
  }

  lemma SelectedBranchDecides(strict: Value, open: Value, value: Value)
    requires strict.Object? && open == Object(map[]) && value.Object?
    requires SelectBranch([strict, open], value) == Some(0) && !Accepts(false, strict, value)
    ensures var schema := Object(map["anyOf" := List([strict, open])]);
            Accepts(true, schema, value) && !Accepts(false, schema, value)
  {
    var schema := Object(map["anyOf" := List([strict, open])]);
    assert KindOf(open.fields) == AnyKind && KindOf(schema.fields) == AnyKind;
    assert Accepts(true, open, value);
    assert Get(schema.fields, "anyOf").items == [strict, open];
    assert [strict, open][1] == open && AcceptsSome(true, schema, value);
  }

  /** In general it does lose: the selected branch can fail where a later one
      would be satisfied. */
  lemma ShortcutLosesBranches() returns (schema: Value, value: Value)
    ensures schema.Object? && ScalarEnums(schema)
    ensures Accepts(true, schema, value) && !Accepts(false, schema, value)
  {
    var tags := Object(map["enum" := List([Str("a")])]);
    var strict := Object(map["properties" := Object(map["type" := tags]), "type" := Str("string")]);
    var open := Object(map[]);
    schema := Object(map["anyOf" := List([strict, open])]);
    value := Object(map["type" := Str("a")]);
    assert KindOf(strict.fields) == StringKind;
    assert TagEnum(strict) == List([Str("a")]) && HasTag(strict, "a");
    SelectedBranchDecides(strict, open, value);
    assert ScalarEnums(tags) && Properties(strict.fields) == map["type" := tags] && ScalarEnums(strict) && ScalarEnums(open);
  }

  // ----- The Go type of a number does not matter

  /** Two decoded values of the same JSON text, whichever way its numbers were
      decoded. */
  ghost predicate SameJson(a: Value, b: Value) {
    match (NumberOf(a), NumberOf(b))
    case (Some(x), Some(y)) => x == y
    case _ =>
      match a
      case List(items) =>
        b.List? && |items| == |b.items| && forall i :: 0 <= i < |items| ==> SameJson(items[i], b.items[i])
      case Object(fields) =>
        b.Object? && fields.Keys == b.fields.Keys && forall k :: k in fields ==> SameJson(fields[k], b.fields[k])
      case _ => a == b
  }

  lemma {:induction false} SameJsonSymmetric(a: Value, b: Value)
    requires SameJson(a, b)
    ensures SameJson(b, a)
    decreases a
  {
    match a
    case List(items) =>
      forall i | 0 <= i < |items|
        ensures SameJson(b.items[i], items[i])
      {
        SameJsonSymmetric(items[i], b.items[i]);
      }
    case Object(fields) =>
      forall k | k in fields
        ensures SameJson(b.fields[k], fields[k])
      {
        SameJsonSymmetric(fields[k], b.fields[k]);
      }
    case _ =>
  }

  ghost predicate SameFields(a: Fields, b: Fields) {
    a.Keys == b.Keys && forall k :: k in a ==> SameJson(a[k], b[k])
  }

  lemma SameGet(a: Fields, b: Fields, key: string)
    requires SameFields(a, b)
    ensures SameJson(Get(a, key), Get(b, key))
    ensures StringOr(Get(a, key)) == StringOr(Get(b, key))
    ensures SameFields(FieldsOr(Get(a, key)), FieldsOr(Get(b, key)))
    ensures NumberOf(Get(a, key)) == NumberOf(Get(b, key))
  {
    assert SameJson(Nil, Nil);
    assert SameFields(map[], map[]);
  }

  lemma SameKind(a: Fields, b: Fields)
    requires SameFields(a, b)
    ensures KindOf(a) == KindOf(b)
  {
    SameGet(a, b, "type");
  }

  lemma SameTag(a: Value, b: Value, tag: string)
    requires SameJson(a, b) && a.Object?
    ensures HasTag(a, tag) <==> HasTag(b, tag)
  {
    var pa, pb := FieldsOr(Get(a.fields, "properties")), FieldsOr(Get(b.fields, "properties"));
    SameGet(a.fields, b.fields, "properties");
    var ta, tb := FieldsOr(Get(pa, "type")), FieldsOr(Get(pb, "type"));
    SameGet(pa, pb, "type");
    SameGet(ta, tb, "enum");
    var ea, eb := TagEnum(a), TagEnum(b);
    assert SameJson(ea, eb);
    if ea.List? && eb.List? {
      forall i | 0 <= i < |ea.items|
        ensures ea.items[i] == Str(tag) <==> eb.items[i] == Str(tag)
      {
        assert SameJson(ea.items[i], eb.items[i]);
      }
    }
  }

  lemma {:induction false} SameSelection(a: seq<Value>, b: seq<Value>, tag: string, i: nat)
    requires |a| == |b| && i <= |a| && forall j :: 0 <= j < |a| ==> SameJson(a[j], b[j])
    ensures SelectFrom(a, tag, i) == SelectFrom(b, tag, i)
    decreases |a| - i
  {
    if i < |a| {
      if a[i].Object? {
        SameTag(a[i], b[i], tag);
      }
      SameSelection(a, b, tag, i + 1);
    }
  }

  lemma SameBranch(a: seq<Value>, b: seq<Value>, v: Value, w: Value)
    requires |a| == |b| && (forall j :: 0 <= j < |a| ==> SameJson(a[j], b[j])) && SameJson(v, w)
    ensures SelectBranch(a, v) == SelectBranch(b, w)
  {
    if v.Object? {
      SameGet(v.fields, w.fields, "type");
      SameSelection(a, b, Tag(v.fields), 0);
    }
  }

  lemma SameLimits(a: Fields, b: Fields, low: string, high: string, x: real)
    requires SameFields(a, b)
    ensures InLimits(a, low, high, x) <==> InLimits(b, low, high, x)
  {
    SameGet(a, b, low);
    SameGet(a, b, high);
  }

  lemma SameRequired(a: Fields, b: Fields, v: Fields, w: Fields)
    requires SameFields(a, b) && SameFields(v, w)
    requires RequiredPresent(Get(a, "required"), v)
    ensures RequiredPresent(Get(b, "required"), w)
  {
    SameGet(a, b, "required");
    var ra, rb := Get(a, "required"), Get(b, "required");
    if rb.List? {
      forall n | n in rb.items
        ensures StringOr(n) in w
      {
        var i :| 0 <= i < |rb.items| && rb.items[i] == n;
        assert SameJson(ra.items[i], rb.items[i]) && StringOr(ra.items[i]) == StringOr(n);
        assert ra.items[i] in ra.items;
      }
    }
  }

  lemma SameClosed(a: Fields, b: Fields, v: Fields, w: Fields)
    requires SameFields(a, b) && SameFields(v, w) && NoneUnknown(a, v)
    ensures NoneUnknown(b, w)
  {
    SameGet(a, b, "additionalProperties");
    SameGet(a, b, "properties");
  }

  lemma SameEnum(a: seq<Value>, b: seq<Value>, v: Value, w: Value, i: nat)
    requires |a| == |b| && (forall j :: 0 <= j < |a| ==> SameJson(a[j], b[j])) && SameJson(v, w)
    requires i < |a| && SameScalar(a[i], v)
    ensures SameScalar(b[i], w)
  {
    assert SameJson(a[i], b[i]);
  }

  /** Replacing the representation of numbers, in the schema or in the value,
      keeps an accepted value accepted. */
  lemma {:induction false} SameAccepts(standard: bool, a: Value, b: Value, v: Value, w: Value)
    requires a.Object? && b.Object? && SameJson(a, b) && SameJson(v, w)
    requires Accepts(standard, a, v)
    ensures Accepts(standard, b, w)
    decreases a, 1
  {
    SameGet(a.fields, b.fields, "enum");
    var ea, eb := Get(a.fields, "enum"), Get(b.fields, "enum");
    if eb.List? {
      var i :| 0 <= i < |ea.items| && SameScalar(ea.items[i], v);
      SameEnum(ea.items, eb.items, v, w, i);
    }
    SameAcceptsAnyOf(standard, a, b, v, w);
    SameAcceptsType(standard, a, b, v, w);
  }

  lemma {:induction false} SameAcceptsAnyOf(standard: bool, a: Value, b: Value, v: Value, w: Value)
    requires a.Object? && b.Object? && SameJson(a, b) && SameJson(v, w)
    requires AcceptsAnyOf(standard, a, v)
    ensures AcceptsAnyOf(standard, b, w)
    decreases a, 0
  {
    SameGet(a.fields, b.fields, "anyOf");
    var ba, bb := Get(a.fields, "anyOf"), Get(b.fields, "anyOf");
    if bb.List? {
      SameBranch(ba.items, bb.items, v, w);
      var selected := SelectBranch(ba.items, v);
      var i: nat;
      if selected.Some? && !standard {
        i := selected.value;
      } else {
        assert AcceptsSome(standard, a, v);
        i :| 0 <= i < |ba.items| && ba.items[i].Object? && Accepts(standard, ba.items[i], v);
      }
      assert SameJson(ba.items[i], bb.items[i]);
      SameAccepts(standard, ba.items[i], bb.items[i], v, w);
      assert AcceptsSome(standard, b, w);
    }
  }

  lemma {:induction false} SameAcceptsType(standard: bool, a: Value, b: Value, v: Value, w: Value)
    requires a.Object? && b.Object? && SameJson(a, b) && SameJson(v, w)
    requires AcceptsType(standard, a, v)
    ensures AcceptsType(standard, b, w)
    decreases a, 0
  {
    SameKind(a.fields, b.fields);
    match KindOf(a.fields)
    case ObjectKind =>
      SameRequired(a.fields, b.fields, v.fields, w.fields);
      SameClosed(a.fields, b.fields, v.fields, w.fields);
      SameGet(a.fields, b.fields, "properties");
      forall k | k in w.fields && Get(Properties(b.fields), k).Object?
        ensures Accepts(standard, Get(Properties(b.fields), k), w.fields[k])
      {
        SameGet(Properties(a.fields), Properties(b.fields), k);
        SameAccepts(standard, Get(Properties(a.fields), k), Get(Properties(b.fields), k), v.fields[k], w.fields[k]);
      }
    case ArrayKind =>
      SameLimits(a.fields, b.fields, "minItems", "maxItems", |v.items| as real);
      SameGet(a.fields, b.fields, "items");
      if Get(b.fields, "items").Object? {
        forall i | 0 <= i < |w.items|
          ensures Accepts(standard, Get(b.fields, "items"), w.items[i])
        {
          assert SameJson(v.items[i], w.items[i]);
          SameAccepts(standard, Get(a.fields, "items"), Get(b.fields, "items"), v.items[i], w.items[i]);
        }
      }
    case StringKind =>
      SameLimits(a.fields, b.fields, "minLength", "maxLength", |v.s| as real);
    case IntegerKind =>
      SameLimits(a.fields, b.fields, "minimum", "maximum", NumberOf(v).value);
    case NumberKind =>
      SameLimits(a.fields, b.fields, "minimum", "maximum", NumberOf(v).value);
    case _ =>
  }

  lemma SameScalarsOnly(a: Value, b: Value)
    requires a.List? && b.List? && SameJson(a, b) && ScalarsOnly(a.items)
    ensures ScalarsOnly(b.items)
  {
    forall i | 0 <= i < |b.items|
      ensures !b.items[i].List? && !b.items[i].Object?
    {
      assert SameJson(a.items[i], b.items[i]);
    }
  }

  lemma {:induction false} SameScalarEnums(a: Value, b: Value)
    requires a.Object? && b.Object? && SameJson(a, b) && ScalarEnums(a)
    ensures ScalarEnums(b)
    decreases a, 1
  {
    SameGet(a.fields, b.fields, "enum");
    if Get(b.fields, "enum").List? {
      SameScalarsOnly(Get(a.fields, "enum"), Get(b.fields, "enum"));
    }
    SameScalarBranches(a, b);
    SameScalarProperties(a, b);
    SameGet(a.fields, b.fields, "items");
    if Get(b.fields, "items").Object? {
      SameScalarEnums(Get(a.fields, "items"), Get(b.fields, "items"));
    }
  }

  lemma {:induction false} SameScalarBranches(a: Value, b: Value)
    requires a.Object? && b.Object? && SameJson(a, b) && ScalarEnums(a)
    ensures var branches := Get(b.fields, "anyOf");
            branches.List? ==> forall i :: 0 <= i < |branches.items| && branches.items[i].Object? ==> ScalarEnums(branches.items[i])
    decreases a, 0
  {
    SameGet(a.fields, b.fields, "anyOf");
    var ba, bb := Get(a.fields, "anyOf"), Get(b.fields, "anyOf");
    if bb.List? {
      forall i | 0 <= i < |bb.items| && bb.items[i].Object?
        ensures ScalarEnums(bb.items[i])
      {
        assert SameJson(ba.items[i], bb.items[i]);
        SameScalarEnums(ba.items[i], bb.items[i]);
      }
    }
  }

  lemma {:induction false} SameScalarProperties(a: Value, b: Value)
    requires a.Object? && b.Object? && SameJson(a, b) && ScalarEnums(a)
    ensures var properties := Properties(b.fields);
            forall k :: k in properties && properties[k].Object? ==> ScalarEnums(properties[k])
    decreases a, 0
  {
    SameGet(a.fields, b.fields, "properties");
    var pa, pb := Properties(a.fields), Properties(b.fields);
    forall k | k in pb && pb[k].Object?
      ensures ScalarEnums(pb[k])
    {
      SameGet(pa, pb, k);
      SameScalarEnums(pa[k], pb[k]);
    }
  }

  /** The agent checks arguments against the schema it received as JSON, the
      server against the schema written in Go.  On the same arguments two checks
      that return agree, whatever orders they visit maps in. */
  lemma AgentAndServerAgree(agent: Order, server: Order, received: Value, written: Value, arguments: Value, again: Value)
    requires received.Object? && written.Object? && SameJson(written, received) && SameJson(arguments, again)
    requires IsOrder(agent) && IsOrder(server)
    requires Validate(agent, received, again, []) != Panicked && Validate(server, written, arguments, []) != Panicked
    ensures Validate(agent, received, again, []) == Validate(server, written, arguments, [])
  {
    ValidateDecides(agent, received, again, []);
    ValidateDecides(server, written, arguments, []);
    if Accepts(false, written, arguments) {
      SameAccepts(false, written, received, arguments, again);
    }
    if Accepts(false, received, again) {
      SameJsonSymmetric(written, received);
      SameJsonSymmetric(arguments, again);
      SameAccepts(false, received, written, again, arguments);
    }
  }
}
