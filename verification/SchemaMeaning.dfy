/** What each keyword asks of a value, spelled out on the schema's own entries. */
module SchemaMeaning {
  import opened Options
  import opened GoValues
  import opened JsonSchema

  // ----- Numbers

  predicate IsNumber(v: Value, x: real) {
    match v
    case Int(n) => n as real == x
    case Float(y) => y == x
    case Number(_, parsed) => parsed == Some(x)
    case _ => false
  }

  /** At least the number under `low`, and at most the number under `high`, where there
      is one. */
  ghost predicate Between(schema: Fields, low: string, high: string, x: real) {
    && (low in schema ==> forall m :: IsNumber(schema[low], m) ==> m <= x)
    && (high in schema ==> forall m :: IsNumber(schema[high], m) ==> x <= m)
  }

  lemma NumberIs(v: Value, x: real)
    ensures NumberOf(v) == Some(x) <==> IsNumber(v, x)
  {
  }

  lemma BetweenIff(schema: Fields, low: string, high: string, x: real)
    ensures InLimits(schema, low, high, x) <==> Between(schema, low, high, x)
  {
    forall v: Value, m
      ensures NumberOf(v) == Some(m) <==> IsNumber(v, m)
    {
      NumberIs(v, m);
    }
  }

  // ----- Types

  /** The entry under `key`, if it is text. */
  predicate TextAt(schema: Fields, key: string, text: string) {
    key in schema && schema[key] == Str(text)
  }

  predicate Declared(schema: Fields, k: string) {
    "properties" in schema && schema["properties"].Object? && k in schema["properties"].fields
  }

  /** Required names are present, nothing undeclared is where that is forbidden, and
      declared properties satisfy their schemas.  A required name that is no text reads
      as the empty name. */
  ghost predicate ObjectMeaning(standard: bool, schema: Fields, value: Value) {
    && value.Object?
    && ("required" in schema && schema["required"].List? ==>
          forall n :: n in schema["required"].items ==> (if n.Str? then n.s else "") in value.fields)
    && (ForbidsOthers(schema) ==> forall k :: k in value.fields ==> Declared(schema, k))
    && (forall k :: k in value.fields && Declared(schema, k) && schema["properties"].fields[k].Object? ==>
          Accepts(standard, schema["properties"].fields[k], value.fields[k]))
  }

  predicate ForbidsOthers(schema: Fields) {
    "additionalProperties" in schema && schema["additionalProperties"] == Bool(false)
  }

  ghost predicate ArrayMeaning(standard: bool, schema: Fields, value: Value) {
    && value.List? && Between(schema, "minItems", "maxItems", |value.items| as real)
    && ("items" in schema && schema["items"].Object? ==>
          forall i :: 0 <= i < |value.items| ==> Accepts(standard, schema["items"], value.items[i]))
  }

  predicate IsWhole(v: Value, n: int) {
    -0x8000_0000_0000_0000 <= n < 0x8000_0000_0000_0000 && IsNumber(v, n as real)
  }

  /** An integer is a number that is whole and fits 64 bits. */
  ghost predicate IntegerMeaning(schema: Fields, value: Value) {
    exists n: int :: IsWhole(value, n) && Between(schema, "minimum", "maximum", n as real)
  }

  ghost predicate NumberMeaning(schema: Fields, value: Value) {
    exists x: real :: IsNumber(value, x) && Between(schema, "minimum", "maximum", x)
  }

  /** What the keyword `type` and its companions ask for.  Without a type, or with an
      empty one, they ask for nothing; an unknown type accepts nothing. */
  ghost predicate TypeMeaning(standard: bool, schema: Fields, value: Value) {
    if TextAt(schema, "type", "object") then ObjectMeaning(standard, schema, value)
    else if TextAt(schema, "type", "array") then ArrayMeaning(standard, schema, value)
    else if TextAt(schema, "type", "string") then value.Str? && Between(schema, "minLength", "maxLength", |value.s| as real)
    else if TextAt(schema, "type", "integer") then IntegerMeaning(schema, value)
    else if TextAt(schema, "type", "number") then NumberMeaning(schema, value)
    else if TextAt(schema, "type", "boolean") then value.Bool?
    else "type" !in schema || !schema["type"].Str? || schema["type"].s == ""
  }

  lemma KindIs(schema: Fields)
    ensures KindOf(schema).ObjectKind? <==> TextAt(schema, "type", "object")
    ensures KindOf(schema).ArrayKind? <==> TextAt(schema, "type", "array")
    ensures KindOf(schema).StringKind? <==> TextAt(schema, "type", "string")
    ensures KindOf(schema).IntegerKind? <==> TextAt(schema, "type", "integer")
    ensures KindOf(schema).NumberKind? <==> TextAt(schema, "type", "number")
    ensures KindOf(schema).BooleanKind? <==> TextAt(schema, "type", "boolean")
    ensures KindOf(schema).AnyKind? <==> "type" !in schema || !schema["type"].Str? || schema["type"].s == ""
  {
  }

  lemma ObjectMeaningIff(standard: bool, schema: Value, value: Value)
    requires schema.Object? && KindOf(schema.fields).ObjectKind?
    ensures AcceptsType(standard, schema, value) <==> ObjectMeaning(standard, schema.fields, value)
  {
    var properties := Properties(schema.fields);
    forall k
      ensures k in properties <==> Declared(schema.fields, k)
      ensures Get(properties, k).Object? <==> Declared(schema.fields, k) && schema.fields["properties"].fields[k].Object?
      ensures Declared(schema.fields, k) ==> Get(properties, k) == schema.fields["properties"].fields[k]
    {
    }
    if value.Object? {
      RequiredIff(schema.fields, value.fields);
    }
  }

  lemma RequiredIff(schema: Fields, fields: Fields)
    ensures RequiredPresent(Get(schema, "required"), fields) <==>
            ("required" in schema && schema["required"].List? ==>
               forall n :: n in schema["required"].items ==> (if n.Str? then n.s else "") in fields)
  {
  }

  lemma ArrayMeaningIff(standard: bool, schema: Value, value: Value)
    requires schema.Object? && KindOf(schema.fields).ArrayKind?
    ensures AcceptsType(standard, schema, value) <==> ArrayMeaning(standard, schema.fields, value)
  {
    if value.List? {
      BetweenIff(schema.fields, "minItems", "maxItems", |value.items| as real);
    }
  }

  lemma StringMeaningIff(standard: bool, schema: Value, value: Value)
    requires schema.Object? && KindOf(schema.fields).StringKind?
    ensures AcceptsType(standard, schema, value) <==>
            value.Str? && Between(schema.fields, "minLength", "maxLength", |value.s| as real)
  {
    if value.Str? {
      BetweenIff(schema.fields, "minLength", "maxLength", |value.s| as real);
    }
  }

  lemma IntegerMeaningIff(standard: bool, schema: Value, value: Value)
    requires schema.Object? && KindOf(schema.fields).IntegerKind?
    ensures AcceptsType(standard, schema, value) <==> IntegerMeaning(schema.fields, value)
  {
    forall x
      ensures NumberOf(value) == Some(x) <==> IsNumber(value, x)
    {
      NumberIs(value, x);
    }
    if NumberOf(value).Some? {
      BetweenIff(schema.fields, "minimum", "maximum", NumberOf(value).value);
      var n := NumberOf(value).value.Floor;
      if n as real == NumberOf(value).value && IsInteger(n as real) {
        assert IsWhole(value, n);
      }
    }
  }

  lemma NumberMeaningIff(standard: bool, schema: Value, value: Value)
    requires schema.Object? && KindOf(schema.fields).NumberKind?
    ensures AcceptsType(standard, schema, value) <==> NumberMeaning(schema.fields, value)
  {
    forall x
      ensures NumberOf(value) == Some(x) <==> IsNumber(value, x)
    {
      NumberIs(value, x);
    }
    if NumberOf(value).Some? {
      BetweenIff(schema.fields, "minimum", "maximum", NumberOf(value).value);
      assert IsNumber(value, NumberOf(value).value);
    }
  }

  /** The declarative reading of `type` is what its keywords ask for. */
  lemma TypeMeaningIff(standard: bool, schema: Value, value: Value)
    requires schema.Object?
    ensures AcceptsType(standard, schema, value) <==> TypeMeaning(standard, schema.fields, value)
  {
    KindIs(schema.fields);
    match KindOf(schema.fields)
    case ObjectKind => ObjectMeaningIff(standard, schema, value);
    case ArrayKind => ArrayMeaningIff(standard, schema, value);
    case StringKind => StringMeaningIff(standard, schema, value);
    case IntegerKind => IntegerMeaningIff(standard, schema, value);
    case NumberKind => NumberMeaningIff(standard, schema, value);
    case _ =>
  }

  // ----- Enumerations and alternatives

  /** One JSON value that is no array and no object: the same number, or the same text,
      truth value or null. */
  ghost predicate SameSimple(a: Value, b: Value) {
    || (exists x :: IsNumber(a, x) && IsNumber(b, x))
    || (a == b && (a.Str? || a.Bool? || a.Nil? || (a.Number? && a.parsed == None)))
  }

  ghost predicate EnumMeaning(schema: Fields, value: Value) {
    "enum" in schema && schema["enum"].List? ==>
      exists i :: 0 <= i < |schema["enum"].items| && SameSimple(schema["enum"].items[i], value)
  }

  lemma SameSimpleIff(a: Value, b: Value)
    ensures SameScalar(a, b) <==> SameSimple(a, b)
  {
    if NumberOf(a).Some? && NumberOf(a) == NumberOf(b) {
      assert IsNumber(a, NumberOf(a).value) && IsNumber(b, NumberOf(a).value);
    }
    if x :| IsNumber(a, x) && IsNumber(b, x) {
      NumberIs(a, x);
      NumberIs(b, x);
    }
  }

  /** The branch enumerates this tag for the property `type`. */
  predicate Enumerates(branch: Value, tag: string) {
    && branch.Object? && "properties" in branch.fields && branch.fields["properties"].Object?
    && "type" in branch.fields["properties"].fields
    && var typeSchema := branch.fields["properties"].fields["type"];
    && typeSchema.Object? && "enum" in typeSchema.fields && typeSchema.fields["enum"].List?
    && Str(tag) in typeSchema.fields["enum"].items
  }

  predicate Tagged(value: Value, tag: string) {
    value.Object? && if "type" in value.fields && value.fields["type"].Str? then tag == value.fields["type"].s else tag == ""
  }

  /** Branch `i` is the first that enumerates the value's tag. */
  ghost predicate FirstFor(branches: seq<Value>, value: Value, i: int) {
    && 0 <= i < |branches| && (exists tag :: Tagged(value, tag) && Enumerates(branches[i], tag))
    && (forall j, tag :: 0 <= j < i && Tagged(value, tag) ==> !Enumerates(branches[j], tag))
  }

  /** The first branch for the value's tag decides; if there is none, and always in the
      standard's reading, some branch must accept. */
  ghost predicate AnyOfMeaning(standard: bool, schema: Fields, value: Value) {
    "anyOf" in schema && schema["anyOf"].List? ==>
      var branches := schema["anyOf"].items;
      if !standard && exists i :: FirstFor(branches, value, i)
      then exists i :: FirstFor(branches, value, i) && branches[i].Object? && Accepts(standard, branches[i], value)
      else exists i :: 0 <= i < |branches| && branches[i].Object? && Accepts(standard, branches[i], value)
  }

  lemma HasTagIff(branch: Value, tag: string)
    ensures HasTag(branch, tag) <==> Enumerates(branch, tag)
  {
  }

  lemma TagIs(value: Value, tag: string)
    requires value.Object?
    ensures Tagged(value, tag) <==> Tag(value.fields) == tag
  {
  }

  lemma SelectedIsFirst(branches: seq<Value>, value: Value, i: int)
    ensures FirstFor(branches, value, i) <==> i >= 0 && SelectBranch(branches, value) == Some(i)
  {
    if value.Object? {
      var tag := Tag(value.fields);
      TagIs(value, tag);
      forall other
        ensures Tagged(value, other) <==> other == tag
      {
        TagIs(value, other);
      }
      forall j | 0 <= j < |branches|
        ensures HasTag(branches[j], tag) <==> Enumerates(branches[j], tag)
      {
        HasTagIff(branches[j], tag);
      }
    }
  }

  lemma AnyOfMeaningIff(standard: bool, schema: Value, value: Value)
    requires schema.Object?
    ensures AcceptsAnyOf(standard, schema, value) <==> AnyOfMeaning(standard, schema.fields, value)
  {
    if "anyOf" in schema.fields && schema.fields["anyOf"].List? {
      var branches := schema.fields["anyOf"].items;
      forall i
        ensures FirstFor(branches, value, i) <==> i >= 0 && SelectBranch(branches, value) == Some(i)
      {
        SelectedIsFirst(branches, value, i);
      }
      if SelectBranch(branches, value).Some? {
        assert FirstFor(branches, value, SelectBranch(branches, value).value);
      }
    }
  }

  lemma EnumMeaningIff(schema: Value, value: Value)
    requires schema.Object?
    ensures (Get(schema.fields, "enum").List? ==>
               exists i :: 0 <= i < |Get(schema.fields, "enum").items| && SameScalar(Get(schema.fields, "enum").items[i], value))
            <==> EnumMeaning(schema.fields, value)
  {
    forall a
      ensures SameScalar(a, value) <==> SameSimple(a, value)
    {
      SameSimpleIff(a, value);
    }
  }

  /** A value satisfies a schema exactly when it satisfies all its keywords. */
  lemma MeaningIff(standard: bool, schema: Value, value: Value)
    requires schema.Object?
    ensures Accepts(standard, schema, value) <==>
            EnumMeaning(schema.fields, value) && AnyOfMeaning(standard, schema.fields, value) && TypeMeaning(standard, schema.fields, value)
  {
    EnumMeaningIff(schema, value);
    AnyOfMeaningIff(standard, schema, value);
    TypeMeaningIff(standard, schema, value);
  }

  /** So the validator, whenever it returns, accepts exactly such values. */
  lemma ValidateMeans(ord: Order, schema: Value, value: Value, site: Site)
    requires schema.Object? && IsOrder(ord) && Validate(ord, schema, value, site) != Panicked
    ensures Validate(ord, schema, value, site) == Accepted <==>
            EnumMeaning(schema.fields, value) && AnyOfMeaning(false, schema.fields, value) && TypeMeaning(false, schema.fields, value)
  {
    ValidateDecides(ord, schema, value, site);
    MeaningIff(false, schema, value);
  }
}
